# Verified models of the critical-section protocol, the runtime host and the sandbox launcher

Three components of the repository are modelled in Dafny and their central promises proved for every
input and every run.

**The durable critical-section protocol** (`LeaseCodec`, `DurableStore`, `LeaseActor`, `LeaseProtocol`,
`LeaseInvariant` and the modules that import it, `Registry`). A critical section is a lease kept by an
actor per key and committed to a shared store that checks the caller's owner epoch and the expected
version. `LeaseProtocol` puts any number of actors and one store under one nondecreasing clock. Claim, load
and start are separate steps; a call reads the clock up to three times, as the code does. A commit is a
message that may land at any later time, repeatedly or never, whether or not its sender still waits or
lives; the answer is a separate step, at any time after the landing while the sender still waits. The record
of what clients were told (`mints`, `promises`, `issued`) is never read by a step. Results: fencing over all
runs; exclusivity, with an exact boundary; coherence of the current owner's cache; frozen inherited leases;
idempotent acquire; and refinement of the repository's own abstract machine, which it explores only up to
time 4, with the exact steps that are not steps of that machine.

**The runtime host** (`RuntimeHost`, `HostSweep`, `HostInterleaving` and the modules that import it,
`RuntimeAuth`, `NonceTable`, `Identifiers`). `RuntimeHost` holds the locked map of shard records and the host
operations, each proved against a function on records that `HostOperations` decides case by case.
`HostInterleaving` runs the request handlers and the sweeper as interleaving programs: which of the lifecycle
barrier and the 256 striped gates a task holds follows from its program counter, a VM operation runs with the
record lock released and succeeds or fails as it likes, and a call closes with a touch outside every gate.
Consecutive record reads and writes made under one gate are one step, because only closing touches can fall
between them (`HibernateInTwoSections`).

**The Linux launcher's argument vector** (`Decimals`, `HelperArgv`). The launcher prints a sandbox plan as
arguments and a shell loop parses them back.

Some promises turned out to have an exception, which the code keeps and the proofs delimit:

- Exclusivity: at any instant at most one sequence of a key is issued (counted from its commit on), unexpired
  and unreleased, unless promised time is taken back before its client knows. With a store that answers every
  commit, however late, that takes a renewal to less time than promised whose answer comes after the key's next
  live grant, so clients that always ask for one lease length are safe (`SteadyLeasesAreExclusive`,
  `LateShorteningBreaksExclusivity`). When answers can be lost, losing that of an acquire or an extension is
  harmless; losing that of a release matters when its actor lives on and may replay the grant beside another's
  or beyond what the store holds (`HarmlessBoundary`, `LostReleaseBreaksExclusivity`). A client whose release is
  committed but not yet answered counts as having given the section back; it has been told of an expiry still
  to come (`LateReleaseLeavesTwoTold`).
- Refinement: a commit takes time to land, and the abstract machine's does not. A renewal that lands after the
  lease has expired brings the lease back, and an acquire that lands after its own expiry spends a sequence
  and leaves no lease; the abstract machine has neither step, and has every other
  (`RefinementBoundary`, `LateRenewalHappens`, `DeadGrantHappens`). Exclusivity and fencing hold regardless.
- A runtime contract is used at most once only if it is verified and entered at one clock reading. The
  code reads the clock twice (`ReplayBoundary`, `SecondReadingAdmitsReplay`).
- A shard is not hibernated or terminated under a running call, whatever other shards' requests ask for, as long
  as its own touches leave its count alone and its own policies keep snapshots enabled. With snapshots disabled
  a hibernate terminates it without looking at its calls (`InvocationAccounting`,
  `HibernateWithoutSnapshotsEndsCalls`).

## Main results

- Lease protocol, over every run: `Fencing`, `LeaseExclusivity` with its exact boundary `HarmlessBoundary`,
  `SteadyLeasesAreExclusive`, `CurrentOwnerIsCoherent`, `InheritedLeaseIsFrozen`, `AcquireIsIdempotent`,
  `ReachableLeasesAreShort`, `RefinementBoundary` and `RunRefines`, `RegistryConsistency`.
- Runtime host, over every run: `WriteBackFindsItsRecord`, `LocksExclude`, `InvocationAccounting`, `EpochHistory`,
  `ObservedMatchesPlacement`, `CallsWereAdmitted`, `ActivatedIsInvocable`; of sweeps, `SweepsConverge` and
  `SweeperSweeps`; of authorisation, `SigningTextIsUnambiguous`, `AcceptedIffSigned` and `ReplayBoundary`.
- Launcher, for every plan and every vector: `RoundTrip`, `ParseSound` and `PrivateDenialIsPermanent`.

The other members of the table say what each operation answers and does, case by case.

## Model

| member | source | states |
|---|---|---|
| LeaseCodec.RoundTrip | cert/beamscale-critical-section/supervisor/src/bmscl_critical_section_store.erl:88-135 | a lease decodes to itself if and only if its sequence is within the cap and holder and request id are bounded |
| LeaseCodec.DecodeThenEncode | cert/beamscale-critical-section/supervisor/src/bmscl_critical_section_store.erl:99-135 | whatever decodes is within bounds and re-encodes to the fields the decoder read |
| LeaseCodec.DecodeDecision | cert/beamscale-critical-section/supervisor/src/bmscl_critical_section_store.erl:99-135 | what the decoder makes of every payload: exactly which it accepts, and which fault it reports of the others |
| DurableStore.CommitContract | cert/beamscale-critical-section/supervisor/src/bmscl_durable_store.erl:78-92 | a commit succeeds exactly under the current epoch and version, and then replaces that row alone; a refusal names the first thing wrong |
| DurableStore.ClaimContract | cert/beamscale-critical-section/supervisor/src/bmscl_durable_store.erl:71-76 | a claim raises one scope's epoch by one and touches nothing else |
| DurableStore.Table.ClaimOwner | cert/beamscale-critical-section/supervisor/test/bmscl_test_durable_store.erl:13-17 | the table's claim is the contract's, and returns an epoch above every earlier one |
| DurableStore.Table.Load | cert/beamscale-critical-section/supervisor/test/bmscl_test_durable_store.erl:19-25 | returns the row of the key, if any |
| DurableStore.Table.Commit | cert/beamscale-critical-section/supervisor/test/bmscl_test_durable_store.erl:27-47 | the table's commit answers and changes the table exactly as the contract says, in the contract's order of refusals |
| DurableStore.Table.Reset | cert/beamscale-critical-section/supervisor/test/bmscl_test_durable_store.erl:7-11 | the table is empty again |
| LeaseActor.AcquireDecision | cert/beamscale-critical-section/supervisor/src/bmscl_critical_section_actor.erl:71-108 | a valid acquire prepares the next sequence exactly on a free lease below the cap, replays exactly the actor's own live grant under its request id, and is otherwise busy for what is left of the lease or exhausted |
| LeaseActor.MalformedCalls | cert/beamscale-critical-section/supervisor/src/bmscl_critical_section_actor.erl:71-76 | an acquire or renewal that asks for no time, for more than the maximum, or by an unbounded name is refused as invalid and changes nothing, and no other is |
| LeaseActor.CandidateLength | cert/beamscale-critical-section/supervisor/src/bmscl_critical_section_actor.erl:85-90 | no call asks the store for a lease of no time or of more than the maximum |
| LeaseLengths.ReachableLeasesAreShort | cert/beamscale-critical-section/supervisor/src/bmscl_critical_section_actor.erl:199-202 | over every run no message asks for more than the maximum from its clock reading, and no stored lease has more than the maximum left |
| LeaseActor.RenewDecision | cert/beamscale-critical-section/supervisor/src/bmscl_critical_section_actor.erl:109-126 | a valid renewal moves the expiry alone, exactly for the holder of the token of this actor's own live lease; else the caller is stale |
| LeaseActor.ReleaseDecision | cert/beamscale-critical-section/supervisor/src/bmscl_critical_section_actor.erl:127-141 | a release frees that lease under the same condition and leaves the sequence alone |
| LeaseActor.StatusDecision | cert/beamscale-critical-section/supervisor/src/bmscl_critical_section_actor.erl:142-144 | a status answers with the cache, expired if it is due, and with what is left of the lease |
| LeaseActor.GrantedTokenIsAccepted | cert/beamscale-critical-section/supervisor/src/bmscl_critical_section_actor.erl:153-168 | the token a client is told is one that renew and release accept |
| LeaseActor.HandleRespects | cert/beamscale-critical-section/supervisor/src/bmscl_critical_section_actor.erl:71-144 | no call moves the cache other than by expiring it, a token is handed out without a commit only for a live lease that is not inherited, and a candidate is always within the stored format's bounds |
| LeaseSteps.KeysShareScope | cert/beamscale-critical-section/supervisor/src/bmscl_critical_section_store.erl:73-82 | keys are fenced together exactly on one virtual shard of one tenant and namespace |
| LeaseSteps.ClaimEffect | cert/beamscale-critical-section/supervisor/src/bmscl_critical_section_store.erl:9-14 | a claim raises the epoch of one scope, and its actor learns of it if it is answered |
| LeaseSteps.LoadEffect | cert/beamscale-critical-section/supervisor/src/bmscl_critical_section_store.erl:15-39 | a claimed actor loads the row as it is then, or a free lease at version 0, and is gone if the row does not decode |
| LeaseSteps.StartEffect | cert/beamscale-critical-section/supervisor/src/bmscl_critical_section_actor.erl:64-69 | a starting actor takes a live lease for inherited |
| LeaseSteps.CallEffect | cert/beamscale-critical-section/supervisor/src/bmscl_critical_section_actor.erl:71-146 | an idle actor answers a call or sends its candidate and waits; a waiting one serves nobody |
| LeaseSteps.DeliverEffect | cert/beamscale-critical-section/supervisor/src/bmscl_critical_section_store.erl:51-57 | a message lands exactly under the current epoch at the current version, and only a sender that still waits can learn of it |
| LeaseSteps.ReplyEffect | cert/beamscale-critical-section/supervisor/src/bmscl_critical_section_store.erl:57-58 | the answer hands the actor its candidate at the next version and its client the token or the news of the release |
| LeaseSteps.LossEffect | cert/beamscale-critical-section/supervisor/src/bmscl_critical_section_actor.erl:94-95 | an actor whose commit fails goes on with the state it had; one that dies is gone |
| LeaseInvariant.NextKeeps | cert/beamscale-critical-section/supervisor/src/bmscl_critical_section_actor.erl:56-211 | every step keeps grants numbered, rows loadable, caches coherent, epochs distinct and messages made from what they replace |
| LeaseInvariant.Reachable | cert/beamscale-critical-section/supervisor/src/bmscl_critical_section_store.erl:9-65 | the invariant holds after every run from an empty store |
| LeaseFencing.Fencing | cert/beamscale-critical-section/supervisor/src/bmscl_critical_section_actor.erl:79-97 | over every run, lost replies and crashes included, a key's grants are numbered without gaps up to 2^53-1 under epochs that never fall, and no sequence is handed to two holders, requests or owners |
| LeaseFencing.OnlyCurrentOwnerWrites | cert/beamscale-critical-section/supervisor/src/bmscl_durable_store.erl:78-92 | a step that changes a row delivers a message of the current owner at the current version |
| LeaseFencing.CommittedCanBeLoaded | cert/beamscale-critical-section/supervisor/src/bmscl_critical_section_store.erl:26-42 | in every reachable store each payload decodes to a well-formed lease and is that lease's encoding |
| LeaseFencing.LandingStoresCandidate | cert/beamscale-critical-section/supervisor/src/bmscl_critical_section_store.erl:51-65 | a landing stores what decodes to exactly the lease its sender prepared |
| LeaseFencing.InheritedLeaseIsFrozen | cert/beamscale-critical-section/supervisor/src/bmscl_critical_section_actor.erl:64-107 | along every run an inherited lease's row stays as it is until it has expired and the key is granted afresh, and that grant gets exactly the next sequence |
| LeaseCoherence.CurrentOwnerIsCoherent | cert/beamscale-critical-section/supervisor/src/bmscl_critical_section_store.erl:9-65 | when every landing is answered, however late, the loaded actor whose epoch is current has the stored version and, up to expiry, the stored lease; while it waits for an answer, the store holds what it committed |
| LeaseExclusivity.LeaseExclusivity | cert/beamscale-critical-section/supervisor/src/bmscl_critical_section_actor.erl:71-141 | along every harmless run, delays, crashes, lost answers and fenced actors that replay included, at most one sequence of a key is issued, unexpired and unreleased |
| LeaseSpeech.SequenceHasOneActor | cert/beamscale-critical-section/supervisor/src/bmscl_critical_section_actor.erl:98-104 | only one actor can speak for a sequence: the one that was granted it |
| LeaseAnswered.AnsweredRunsAreExclusive | cert/beamscale-critical-section/supervisor/src/bmscl_critical_section_actor.erl:71-141 | with a store that answers every commit, however late, and no renewal to less time than promised, the section is exclusive |
| LeaseAnswered.SteadyLeasesAreExclusive | cert/beamscale-critical-section/supervisor/src/bmscl_critical_section_actor.erl:71-141 | with such a store and one lease length for all calls, it is exclusive over every run |
| LeaseBoundary.HarmlessBoundary | cert/beamscale-critical-section/supervisor/src/bmscl_critical_section_store.erl:51-65 | below the sequence cap, every harmless continuation of a step stays exclusive if and only if the step is harmless: it neither loses the answer to a shortening renewal, nor that to a release whose replay would outlive the stored lease or contradict another claim, nor lands a live grant before a shortening renewal is answered |
| LeaseBoundary.OutlivingBreaks | cert/beamscale-critical-section/supervisor/src/bmscl_critical_section_actor.erl:71-97 | over a promise that outlives the stored lease another client is granted the section |
| LeaseBoundary.ForgettingBreaks | cert/beamscale-critical-section/supervisor/src/bmscl_critical_section_actor.erl:127-138 | an actor that goes on with the lease of a landed, unanswered release can be asked to replay it, which in the end leaves two clients with the section |
| LeaseWitness.LostReleaseBreaksExclusivity | cert/beamscale-critical-section/supervisor/src/bmscl_critical_section_actor.erl:127-138 | a run to two promised sequences whose one harmful step gives up a landed release |
| LeaseWitness.LateShorteningBreaksExclusivity | cert/beamscale-critical-section/supervisor/src/bmscl_critical_section_actor.erl:109-122 | a run to two promised sequences in which every landing finds its sender waiting and no answer is lost |
| LeaseWitness.LateReleaseLeavesTwoTold | cert/beamscale-critical-section/supervisor/src/bmscl_critical_section_actor.erl:127-138 | a harmless run after which two clients have been told of an expiry to come, one of them having released |
| LeaseWitness.LateRenewalHappens | cert/beamscale-critical-section/supervisor/src/bmscl_critical_section_actor.erl:109-122 | a run after which a renewal lands when its lease has expired |
| LeaseWitness.DeadGrantHappens | cert/beamscale-critical-section/supervisor/src/bmscl_critical_section_actor.erl:78-97 | a run after which an acquire lands when its own lease has expired |
| LeaseIdempotence.TenureLasts | cert/beamscale-critical-section/supervisor/src/bmscl_critical_section_actor.erl:71-141 | as long as an actor's lease stays live, nothing moves its token, holder, request id or origin |
| LeaseIdempotence.AcquireIsIdempotent | cert/beamscale-critical-section/supervisor/src/bmscl_critical_section_actor.erl:98-104 | after any interleaving in which the lease stayed live, acquiring again with the same request id returns the original token with the current expiry, sends nothing and changes nothing |
| LeaseModel.StepKeepsInvariant | cert/beamscale-critical-section/supervisor/conformance/critical_section_formal_model.rs:82-173 | a step of the abstract machine keeps its invariant, never lowers the epoch, and raises the sequence by one only from a free lease |
| LeaseModel.RunKeepsInvariant | cert/beamscale-critical-section/supervisor/conformance/critical_section_formal_model.rs:199-215 | the invariant holds along every run, with time, epochs and holders unbounded |
| LeaseModel.EnabledActions | cert/beamscale-critical-section/supervisor/conformance/critical_section_formal_model.rs:102-160 | when each action is enabled, and that a replayed acquire changes nothing |
| LeaseModel.InheritedEnablesNothing | cert/beamscale-critical-section/supervisor/conformance/critical_section_formal_model.rs:264-275 | an inherited lease enables exactly ticks and further failovers |
| LeaseRefinement.RefinementBoundary | cert/beamscale-critical-section/supervisor/conformance/critical_section_formal_model.rs:102-160 | a concrete step is a step of the abstract machine or a stutter if and only if it is neither the late landing of a renewal nor the dead landing of an acquire |
| LeaseRefinement.StepRefines | cert/beamscale-critical-section/supervisor/conformance/critical_section_formal_model.rs:102-160 | names the abstract action of every other step; a renewal into the past is a release |
| LeaseRefinement.FirstClaimIsInitial | cert/beamscale-critical-section/supervisor/conformance/critical_section_formal_model.rs:46-57 | the first claim of a scope brings its keys to the abstract initial state |
| LeaseRefinement.RunRefines | cert/beamscale-critical-section/supervisor/conformance/critical_section_formal_model.rs:46-173 | a run without those landings is, seen through any claimed key, a run of the abstract machine |
| LeaseRefinement.ModelInvariantHolds | cert/beamscale-critical-section/supervisor/conformance/critical_section_formal_model.rs:82-100 | the abstract invariant holds of every claimed key after every run, untimely landings included |
| Registry.RegistryConsistency | cert/beamscale-critical-section/supervisor/src/bmscl_critical_section_registry.erl:80-158 | over every run actors and monitors stay inverse, every key is the bound tenant's, and a key's successive actors have strictly increasing owner epochs |
| Registry.DownRemovesOnlyItsOwn | cert/beamscale-critical-section/supervisor/src/bmscl_critical_section_registry.erl:61-69 | a death notice removes a key's actor exactly when it carries that actor's monitor |
| Registry.TenantIsBound | cert/beamscale-critical-section/supervisor/src/bmscl_critical_section_registry.erl:102-107 | the bound tenant never changes and another tenant's call changes nothing |
| Registry.ReplacementNeedsHigherEpoch | cert/beamscale-critical-section/supervisor/src/bmscl_critical_section_registry.erl:109-127 | a live actor is replaced only for a higher runtime epoch, is served for its own, and a lower one is refused |
| Registry.CallIsRefused | cert/beamscale-critical-section/supervisor/src/bmscl_critical_section_registry.erl:80-107 | a zero epoch, a malformed key and a foreign tenant each get their own refusal, in this order, and change nothing |
| Registry.CallStartsActor | cert/beamscale-critical-section/supervisor/src/bmscl_critical_section_registry.erl:109-146 | an admitted call on a key without a live actor of its runtime is served by the actor that starts, which takes the key over from its predecessor; if none starts the key is left without |
| Registry.CallFindsActor | cert/beamscale-critical-section/supervisor/src/bmscl_critical_section_registry.erl:114-127 | any other admitted call is served by the live actor of its runtime epoch or turned away as stale |
| Registry.UseServesKey | cert/beamscale-critical-section/supervisor/src/bmscl_critical_section_registry.erl:129-146 | such a call claims the key, and the actor that starts is registered under the claimed epoch and the loaded version, watched and on record |
| Registry.UseWithoutStart | cert/beamscale-critical-section/supervisor/src/bmscl_critical_section_registry.erl:109-127 | a call that is refused or finds its actor claims nothing |
| RuntimeHost.Host.Ensure | cert/beamscale-critical-section/infra-runtime-host/src/lib.rs:363-427 | the record and the answer are those of `EnsureRecord`, and nothing else moves |
| HostOperations.EnsureAdmission | cert/beamscale-critical-section/infra-runtime-host/src/lib.rs:363-377 | which ensure requests are well formed, and what the others are told |
| HostOperations.EnsureRefusals | cert/beamscale-critical-section/infra-runtime-host/src/lib.rs:382-411 | what a refused ensure is told |
| HostOperations.DigestForms | cert/beamscale-critical-section/infra-runtime-host/src/lib.rs:1041-1054 | a digest is given bare or behind its prefix, as 64 lower-case hexadecimal digits |
| RuntimeHost.Host.BeginStart | cert/beamscale-critical-section/infra-runtime-host/src/lib.rs:429-452 | the first locked section of a start |
| HostOperations.StartDecision | cert/beamscale-critical-section/infra-runtime-host/src/lib.rs:436-452 | a start at the epoch runs the VM exactly from Cold, Hibernated or Terminated, is done in Hot and Starting, and is refused else |
| RuntimeHost.Host.EndStart | cert/beamscale-critical-section/infra-runtime-host/src/lib.rs:459-477 | the write-back of a start, by key and without rechecking |
| HostHandlers.StartActs | cert/beamscale-critical-section/infra-runtime-host/src/main.rs:341-356 | a start under its gate goes to the VM exactly for such a shard, and else changes nothing |
| HostHandlers.StartEnds | cert/beamscale-critical-section/infra-runtime-host/src/lib.rs:459-477 | whatever came in between, a started VM leaves its shard Hot with handles of that process and epoch, a failed one Cold and failed |
| RuntimeHost.Host.WarmIdle | cert/beamscale-critical-section/infra-runtime-host/src/lib.rs:479-499 | an unused Hot or WarmIdle shard of the named epoch becomes WarmIdle |
| HostOperations.WarmIdleDecision | cert/beamscale-critical-section/infra-runtime-host/src/lib.rs:486-498 | a shard of the epoch becomes WarmIdle exactly if it is unused and Hot or WarmIdle |
| HostHandlers.WarmIdleActs | cert/beamscale-critical-section/infra-runtime-host/src/lib.rs:479-499 | the same under its gate, changing nothing else |
| RuntimeHost.Host.RecordTouch | cert/beamscale-critical-section/infra-runtime-host/src/lib.rs:501-527 | the 32-bit count moves by the delta, saturating, and a used warm shard is Hot again |
| HostOperations.TouchDecision | cert/beamscale-critical-section/infra-runtime-host/src/lib.rs:501-527 | the count moves by the delta as far as 32 bits allow, the time is noted, and a warm shard in use is Hot |
| HostHandlers.TouchActs | cert/beamscale-critical-section/infra-runtime-host/src/main.rs:510-519 | a touch by request takes effect exactly at the epoch and with a delta of at most one |
| RuntimeHost.Host.ReadSnapshotPolicy | cert/beamscale-critical-section/infra-runtime-host/src/lib.rs:536-541 | the first locked section of a hibernate says whether the snapshots of the named epoch are enabled |
| RuntimeHost.Host.BeginSnapshot | cert/beamscale-critical-section/infra-runtime-host/src/lib.rs:545-557 | the second stops an unused Hot or WarmIdle shard of the named epoch and looks at no policy |
| RuntimeHost.Host.BeginHibernate | cert/beamscale-critical-section/infra-runtime-host/src/lib.rs:529-557 | the sections of a hibernate up to its VM operation, which terminates when snapshots are disabled |
| RuntimeHost.HibernateInTwoSections | cert/beamscale-critical-section/infra-runtime-host/src/lib.rs:536-557 | however calls close between its two sections, a hibernate acts as if both took place at the second |
| HostOperations.HibernateDecision | cert/beamscale-critical-section/infra-runtime-host/src/lib.rs:536-557 | a hibernate goes to the VM exactly for an unused running shard with snapshots, or any that has not terminated without |
| HostHandlers.HibernateActs | cert/beamscale-critical-section/infra-runtime-host/src/lib.rs:529-557 | the same under its gate, changing nothing else |
| HostHandlers.HibernateEnds | cert/beamscale-critical-section/infra-runtime-host/src/lib.rs:558-565 | a stopped VM leaves its shard Hibernated, or Terminated without snapshots, and without handles; one that does not stop leaves it as it was |
| RuntimeHost.Host.BeginTerminate | cert/beamscale-critical-section/infra-runtime-host/src/lib.rs:568-584 | the locked section of a terminate |
| HostOperations.TerminateDecision | cert/beamscale-critical-section/infra-runtime-host/src/lib.rs:575-584 | a terminate at the epoch goes to the VM exactly if the shard has not terminated |
| HostHandlers.TerminateActs | cert/beamscale-critical-section/infra-runtime-host/src/main.rs:1185-1200 | under its gate it spares a shard in use, and clears what was observed of one that has terminated |
| HostHandlers.TerminateEnds | cert/beamscale-critical-section/infra-runtime-host/src/lib.rs:585-593 | a stopped VM leaves its shard Terminated without handles and clears what was observed; else it drains on |
| RuntimeHost.Host.EndStop | cert/beamscale-critical-section/infra-runtime-host/src/lib.rs:558-594 | the write-back of a hibernate or terminate |
| RuntimeHost.Host.SweepKey | cert/beamscale-critical-section/infra-runtime-host/src/lib.rs:685-694 | one sweep action moves its record as `SweptRecord` says and no other |
| RuntimeHost.Host.SweepOnce | cert/beamscale-critical-section/infra-runtime-host/src/lib.rs:652-695 | one sweep gives the same map whatever order the records were visited in |
| HostOperations.SweepDecision | cert/beamscale-critical-section/infra-runtime-host/src/lib.rs:659-694 | one sweep of any record, snapshots on or off, the VM stopping or not |
| HostSweeper.SweeperSweeps | cert/beamscale-critical-section/infra-runtime-host/src/main.rs:244-251 | left alone, the sweeper among the handlers takes every shard where one sweep of the host takes it |
| HostSweep.OneSweepClimbsOneStage | cert/beamscale-critical-section/infra-runtime-host/src/lib.rs:659-684 | a sweep moves a quiet shard exactly one stage when its idle time entitles it to more, and else leaves it alone |
| HostSweep.SweepsConverge | cert/beamscale-critical-section/infra-runtime-host/src/lib.rs:106-122 | n sweeps bring a quiet shard n stages up, bounded by what its idle time entitles it to |
| HostSweep.ThreeSweepsTerminate | cert/beamscale-critical-section/infra-runtime-host/src/lib.rs:652-695 | three sweeps terminate every quiet shard idle for `destroy_after_ms`; two leave a Hot one hibernated |
| HostSweep.SweepSparesTheActive | cert/beamscale-critical-section/infra-runtime-host/src/lib.rs:658-684 | a sweep changes no shard with active invocations or idle for less than `warm_idle_ms` |
| HostSweep.ActivityDefersSweeps | cert/beamscale-critical-section/infra-runtime-host/src/lib.rs:462-527 | a started or touched shard is spared for its warm-idle time |
| HostHistory.EnsureDecision | cert/beamscale-critical-section/infra-runtime-host/src/lib.rs:382-426 | an ensure is accepted exactly for a new shard, a terminated predecessor or the same identity, sets every field from the request, and keeps the life of a record of the same epoch |
| HostHistory.EnsureIsIdempotent | cert/beamscale-critical-section/infra-runtime-host/src/lib.rs:401-413 | ensuring again changes only the time of last activity |
| HostHandlers.EnsureActs | cert/beamscale-critical-section/infra-runtime-host/src/main.rs:312-339 | an ensure changes no live shard's deployment; else it writes what the host makes of it and clears what was observed unless epoch and deployment stay |
| HostHistory.EpochHistory | cert/beamscale-critical-section/infra-runtime-host/src/lib.rs:382-426 | over every run epochs never fall and one epoch has one user and root deployment |
| HostHistory.StepSucceeds | cert/beamscale-critical-section/infra-runtime-host/src/lib.rs:390-400 | an epoch rises only out of Terminated |
| HostHistory.WrongEpochChangesNothing | cert/beamscale-critical-section/infra-runtime-host/src/lib.rs:996-1005 | a request at another epoch changes no record, except the legal replacement |
| HostDiscipline.NextKeeps | cert/beamscale-critical-section/infra-runtime-host/src/main.rs:244-251 | every step keeps gates and barrier exclusive and every running operation's record as the operation left it |
| HostHandlers.LocksAreTaken | cert/beamscale-critical-section/infra-runtime-host/src/main.rs:1270-1277 | a request gets past the barrier unless a sweep is on, and past its gate unless a task of its stripe is |
| HostHandlers.LocksExclude | cert/beamscale-critical-section/infra-runtime-host/src/main.rs:244-251 | over every run no two tasks are past gates of one stripe, and none is past the barrier during a sweep |
| HostDiscipline.WriteBackFindsItsRecord | cert/beamscale-critical-section/infra-runtime-host/src/lib.rs:429-477 | over every run, between an operation's two locked sections its record keeps epoch and state, for any stripe collisions and with the sweeper about |
| HostDiscipline.SweepWriteBackFindsItsRecord | cert/beamscale-critical-section/infra-runtime-host/src/lib.rs:545-593 | the same for the sweeper's operations, on shards without active invocations |
| HostDiscipline.HandlesMatchEpoch | cert/beamscale-critical-section/infra-runtime-host/src/lib.rs:459-477 | handles in a record were produced for its epoch, and a runnable record has some |
| HostAccounting.InvocationAccounting | cert/beamscale-critical-section/infra-runtime-host/src/main.rs:710-810 | over every run in which a shard's own requests are calm, its count is the number of its calls in their bracket; with such a call it is Hot, at the call's epoch and under no VM operation |
| HostAccounting.CloseCallCounts | cert/beamscale-critical-section/infra-runtime-host/src/main.rs:644-659 | the closing touch finds its own epoch and lowers the count by exactly one |
| HostAccounting.OpenCallCounts | cert/beamscale-critical-section/infra-runtime-host/src/main.rs:574-588 | opening a call raises the count by exactly one |
| HostHandlers.CallEnds | cert/beamscale-critical-section/infra-runtime-host/src/main.rs:795-810 | a closing touch counts its call out at its epoch, whatever has become of the shard's state |
| HostAdmission.InvokeActs | cert/beamscale-critical-section/infra-runtime-host/src/main.rs:710-750 | a call opens its bracket exactly for a running shard of its epoch that accepts its deployment, and else changes nothing |
| HostAdmission.CallsWereAdmitted | cert/beamscale-critical-section/infra-runtime-host/src/main.rs:1292-1315 | over every run each call inside its bracket was admitted so at the step at which it entered |
| HostWitness.HibernateWithoutSnapshotsEndsCalls | cert/beamscale-critical-section/infra-runtime-host/src/lib.rs:542-544 | from the empty host, every shard created with snapshots disabled is terminated by a hibernate under its running call |
| HostActivation.ObservedMatchesPlacement | cert/beamscale-critical-section/infra-runtime-host/src/main.rs:307-339 | over every run, when a shard's gate is free each of its entries names the current epoch and has placement and root loaded |
| HostHandlers.ActivateActs | cert/beamscale-critical-section/infra-runtime-host/src/main.rs:418-432 | an activation goes to the guest exactly for a running shard of its epoch |
| HostAdmission.ActivationEnds | cert/beamscale-critical-section/infra-runtime-host/src/main.rs:481-496 | once acknowledged it makes its deployment the root and adds it and the placement to exactly what was loaded; else nothing is observed |
| HostAdmission.ActivatedIsInvocable | cert/beamscale-critical-section/infra-runtime-host/src/main.rs:481-496 | after an acknowledged activation every call with that deployment is admitted as long as the shard stays up and is running |
| HostHandlers.ClearEnds | cert/beamscale-critical-section/infra-runtime-host/src/main.rs:1279-1290 | clearing forgets what was observed of the shard, in all epochs, and of no other |
| HostActivation.AllowedOnlyGrows | cert/beamscale-critical-section/infra-runtime-host/src/main.rs:1292-1315 | while a shard is neither Cold nor Terminated no step removes a deployment from those it accepts, and its epoch stays |
| HostActivation.AllowedGrowsOverRuns | cert/beamscale-critical-section/infra-runtime-host/src/main.rs:1292-1315 | over every run in which a shard is neither Cold nor Terminated, it keeps its epoch and every deployment it accepted |
| RuntimeAuth.SigningTextIsUnambiguous | cert/beamscale-critical-section/infra-runtime-host/src/runtime_auth.rs:56-133 | two accepted requests with the same signing text agree in all eleven signed fields, decimals included |
| RuntimeAuth.AcceptedIffSigned | cert/beamscale-critical-section/infra-runtime-host/src/runtime_auth.rs:56-109 | the accepted contracts are exactly the timely ones a holder of the secret makes out for this request |
| RuntimeAuth.VerifyRefusals | cert/beamscale-critical-section/infra-runtime-host/src/runtime_auth.rs:56-109 | what a contract that is not accepted is refused for, in the order of the checks |
| RuntimeAuth.CanonicalText | cert/beamscale-critical-section/infra-runtime-host/src/runtime_auth.rs:117-131 | the signing text is the eleven fields in this order, each on a line of its own |
| RuntimeAuth.AcceptedExpiresSoon | cert/beamscale-critical-section/infra-runtime-host/src/runtime_auth.rs:78-87 | an accepted contract has not expired and expires within 65 seconds |
| RuntimeAuth.ConstantTimeEq | cert/beamscale-critical-section/infra-runtime-host/src/runtime_auth.rs:177-186 | the comparison without early exit is equality |
| RuntimeAuth.ComputeHmac | cert/beamscale-critical-section/infra-runtime-host/src/runtime_auth.rs:142-166 | the in-place padding computes the keyed hash of section 2 of RFC 2104 over any 32-byte hash |
| RuntimeAuth.HmacByBytes | cert/beamscale-critical-section/infra-runtime-host/src/runtime_auth.rs:142-166 | byte by byte, that hash is the one of section 2 of RFC 2104 |
| NonceTable.Table.Consume | cert/beamscale-critical-section/infra-runtime-host/src/main.rs:1421-1433 | stale entries go, the nonce is entered, and the answer is whether it was absent |
| NonceTable.ReplayBoundary | cert/beamscale-critical-section/infra-runtime-host/src/main.rs:1414-1433 | the next use of a nonce is accepted again if and only if a reading brought to the table since was past the earlier use's expiry |
| NonceTable.AcceptedAtMostOnce | cert/beamscale-critical-section/infra-runtime-host/src/main.rs:1406-1433 | with one nondecreasing reading for verification and entry, a contract is accepted at most once |
| NonceTable.FirstUseIsAccepted | cert/beamscale-critical-section/infra-runtime-host/src/main.rs:1421-1433 | a nonce not used before is accepted |
| NonceTable.SecondReadingAdmitsReplay | cert/beamscale-critical-section/infra-runtime-host/src/main.rs:1406-1418 | a contract verified in its last second and entered in the next is accepted twice |
| NonceTable.EntriesExpireSoon | cert/beamscale-critical-section/infra-runtime-host/src/main.rs:1406-1433 | with the code's two readings, every entry expires within 65 seconds of the reading that entered it, and no later reading was past its expiry |
| HelperArgv.Print | proc-isolation-proof/src/platform/linux.rs:73-103 | the launcher's arguments are the plan's options in order, then `--` and the target's arguments |
| HelperArgv.PrintedWords | proc-isolation-proof/src/platform/linux.rs:73-103 | the printed options word by word |
| HelperArgv.Parse | proc-isolation-proof/scripts/linux/ores-proc-isolate.sh:17-89 | the helper's loop computes `Parsed` |
| HelperArgv.RoundTrip | proc-isolation-proof/scripts/linux/ores-proc-isolate.sh:17-89 | for every plan and arbitrary strings, parsing the printed arguments gives back the plan's settings |
| HelperArgv.ParseOptions | proc-isolation-proof/scripts/linux/ores-proc-isolate.sh:31-89 | every list of well-formed options is parsed as that list |
| HelperArgv.ParseSound | proc-isolation-proof/scripts/linux/ores-proc-isolate.sh:31-89 | whatever is accepted is such a list, with an optional tail after `--`, and means what the list means |
| HelperArgv.PrintIsInjective | proc-isolation-proof/src/platform/linux.rs:73-103 | plans that print alike agree in everything but the private-network flag |
| HelperArgv.PrivateDenialIsPermanent | proc-isolation-proof/scripts/linux/ores-proc-isolate.sh:51-54 | no argument vector switches private-network denial off |
| HelperArgv.PlanAdmission | proc-isolation-proof/scripts/linux/ores-proc-isolate.sh:91-101 | the helper goes on with a plan exactly when its executable is absolute and runs and external mode denies loopback |
| HelperArgv.HelperAdmission | proc-isolation-proof/scripts/linux/ores-proc-isolate.sh:91-101 | whatever the vector, the helper goes on exactly with an absolute executable that runs, numeric limits, a known network, and both denials on the external one |

## Left out

- The non-persistent actor constructor: registry code always starts actors from a loaded row.
- Store errors without a decision: a claim may go unanswered and a commit may never land, but store error terms are not told apart in `LeaseProtocol`.
- The Redis backend and the JSON library: the store is its contract, and a payload is an object of typed fields.
- Several clocks: all actors read one nondecreasing clock; the fencing results use no clock comparison between actors.
- Two commits of one actor with equal contents, sent at the same clock reading, are one message of `LeaseProtocol`.
- LeaseModel.StepKeepsInvariant: lease lengths, at least 1, are chosen per action instead of being the constant 2, and the bounds on time and epoch are gone.
- The breadth-first search of the bounded checker (`main` and `actions`): the unbounded proofs stand in its place.
- RegistryConsistency: runtime epochs are not claimed to increase across an actor's death, because the registry then forgets the old one.
- InvocationAccounting: assumes of the shard in question that its endpoint touches carry delta 0, its policies keep snapshots enabled and at most 2^32 - 1 of its calls are in flight, and of all handlers that they run to completion; the results of `HostDiscipline`, `HostHistory` and `HostActivation` assume only the last.
- AllowedGrowsOverRuns: says nothing about Cold and Terminated shards; a sweep that terminates a shard leaves what was observed in place until the next ensure or terminate request clears it.
- `HostInterleaving` models the shared maps as values, since its steps belong to many concurrent programs; the methods that update the record map and the nonce table in place are those of `RuntimeHost.Host` and `NonceTable.Table`.
- Firecracker, jailer, cgroups, network namespaces, vsock, HTTP routing and artifact storage: VM and guest operations succeed or fail arbitrarily.
- The execution target a request names besides its shard's key: every shard was ensured for the one target the host serves, so such a request finds none.
- Metering, byte counters and request counts of a shard record.
- AcceptedAtMostOnce: needs one clock reading for verification and entry and one expiry per nonce; `ReplayBoundary` says exactly what happens otherwise.
- SHA-256, hexadecimal output and request serialisation: hashes are functions.
- The helper beyond option parsing and the first checks (bwrap, nsenter, iptables), the macOS helper, and the diagnostics of the launcher.
- Policy and manifest validation, capability lists, schemas and interface definitions.
