/** The durable store: ownership epochs per scope and versioned rows per key. */
module DurableStore {
  import opened Options
  import opened LeaseCodec

  datatype Key = Key(tenant: Binary, namespace: Binary, objectKey: Binary)

  /** Ownership is fenced per virtual shard, so several keys may share one scope. */
  datatype Scope = Scope(tenant: Binary, namespace: Binary, virtualShard: nat)

  /** `hash` places a key on a virtual shard; nothing is assumed about collisions. */
  function ScopeFor(hash: Key -> nat, key: Key): Scope {
    Scope(key.tenant, key.namespace, hash(key))
  }

  datatype Row = Row(version: nat, payload: Payload)

  datatype Store = Store(owners: map<Scope, nat>, objects: map<Key, Row>)

  datatype CommitResult =
    | Committed(version: nat)
    | OwnerMissing
    | StaleOwnerEpoch(current: nat)
    | StaleVersion(version: nat)

  const EMPTY_STORE := Store(map[], map[])

  /** The scope's epoch; 0 before the first claim. */
  function Owner(store: Store, scope: Scope): nat {
    if scope in store.owners then store.owners[scope] else 0
  }

  /** The key's version; 0 before the first commit. */
  function Version(store: Store, key: Key): nat {
    if key in store.objects then store.objects[key].version else 0
  }

  function RowOf(store: Store, key: Key): Option<Row> {
    if key in store.objects then Some(store.objects[key]) else None
  }

  function Claimed(store: Store, scope: Scope): Store {
    store.(owners := store.owners[scope := Owner(store, scope) + 1])
  }

  function CommitAnswer(store: Store, key: Key, expected: nat, scope: Scope, epoch: nat): CommitResult {
    if scope !in store.owners then OwnerMissing
    else if store.owners[scope] != epoch then StaleOwnerEpoch(store.owners[scope])
    else if Version(store, key) != expected then StaleVersion(Version(store, key))
    else Committed(expected + 1)
  }

  function CommitEffect(store: Store, key: Key, expected: nat, scope: Scope, epoch: nat, payload: Payload): Store {
    match CommitAnswer(store, key, expected, scope, epoch)
    case Committed(version) => store.(objects := store.objects[key := Row(version, payload)])
    case _ => store
  }

  /** The storage contract: a claim raises one scope's epoch by one and touches nothing else. */
  lemma ClaimContract(store: Store, scope: Scope, other: Scope)
    ensures var after := Claimed(store, scope);
            && after.objects == store.objects
            && Owner(after, scope) == Owner(store, scope) + 1
            && (other != scope ==> Owner(after, other) == Owner(store, other))
  {
  }

  /**
   * The storage contract: a commit succeeds exactly when the epoch is the scope's current one and the
   * version is the row's current one; then it replaces that row alone, and otherwise nothing. A refusal says
   * whether the scope has no owner, another epoch, or the row another version, in this order.
   */
  lemma CommitContract(store: Store, key: Key, expected: nat, scope: Scope, epoch: nat, payload: Payload, other: Key)
    ensures var after := CommitEffect(store, key, expected, scope, epoch, payload);
            var answer := CommitAnswer(store, key, expected, scope, epoch);
            && after.owners == store.owners
            && (answer.Committed? <==>
                scope in store.owners && Owner(store, scope) == epoch && Version(store, key) == expected)
            && (answer.Committed? ==>
                answer.version == expected + 1 && key in after.objects
                && after.objects[key] == Row(expected + 1, payload))
            && (!answer.Committed? ==> after == store)
            && (answer.OwnerMissing? <==> scope !in store.owners)
            && (answer.StaleOwnerEpoch? <==> scope in store.owners && Owner(store, scope) != epoch)
            && (answer.StaleOwnerEpoch? ==> answer.current == Owner(store, scope))
            && (answer.StaleVersion? ==> answer.version == Version(store, key) != expected)
            && (other != key ==> RowOf(after, other) == RowOf(store, other))
  {
  }

  /** The in-memory table that gives the contract its executable meaning. */
  class Table {
    var owners: map<Scope, nat>
    var objects: map<Key, Row>

    function Contents(): Store
      reads this
    {
      Store(owners, objects)
    }

    constructor ()
      ensures Contents() == EMPTY_STORE
    {
      owners, objects := map[], map[];
    }

    method Reset()
      modifies this
      ensures Contents() == EMPTY_STORE
    {
      owners, objects := map[], map[];
    }

    method ClaimOwner(scope: Scope) returns (epoch: nat)
      modifies this
      ensures Contents() == Claimed(old(Contents()), scope)
      ensures epoch == Owner(Contents(), scope) > Owner(old(Contents()), scope)
    {
      epoch := 0;
      if scope in owners {
        epoch := owners[scope];
      }
      epoch := epoch + 1;
      owners := owners[scope := epoch];
    }

    method Load(key: Key) returns (row: Option<Row>)
      ensures row == RowOf(Contents(), key)
    {
      if key in objects {
        return Some(objects[key]);
      }
      return None;
    }

    method Commit(key: Key, expected: nat, scope: Scope, epoch: nat, payload: Payload) returns (answer: CommitResult)
      modifies this`objects
      ensures Contents() == CommitEffect(old(Contents()), key, expected, scope, epoch, payload)
      ensures answer == CommitAnswer(old(Contents()), key, expected, scope, epoch)
    {
      if scope !in owners {
        return OwnerMissing;
      }
      if owners[scope] != epoch {
        return StaleOwnerEpoch(owners[scope]);
      }
      var current := 0;
      if key in objects {
        current := objects[key].version;
      }
      if current != expected {
        return StaleVersion(current);
      }
      objects := objects[key := Row(current + 1, payload)];
      return Committed(current + 1);
    }
  }
}
