/** One-time use of runtime-control contracts. */
module NonceTable {
  import opened RuntimeAuth

  /** Entries whose expiry has not passed. */
  function Retained(table: map<string, U64>, now: U64): map<string, U64> {
    map nonce | nonce in table && now <= table[nonce] :: table[nonce]
  }

  predicate Fresh(table: map<string, U64>, nonce: string, now: U64) {
    nonce !in Retained(table, now)
  }

  /** The nonce is entered whether or not it was fresh. */
  function Consumed(table: map<string, U64>, nonce: string, expiresAt: U64, now: U64): map<string, U64> {
    Retained(table, now)[nonce := expiresAt]
  }

  class Table {
    var consumed: map<string, U64>

    constructor ()
      ensures consumed == map[]
    {
      consumed := map[];
    }

    method Consume(nonce: string, expiresAt: U64, now: U64) returns (ok: bool)
      modifies this
      ensures ok <==> Fresh(old(consumed), nonce, now)
      ensures consumed == Consumed(old(consumed), nonce, expiresAt, now)
    {
      consumed := map n | n in consumed && consumed[n] >= now :: consumed[n];
      ok := nonce !in consumed;
      consumed := consumed[nonce := expiresAt];
    }
  }

  /**
   * A verified contract reaching the table: in the order of the table's lock, with the clock reading that
   * verified it and the one it brings to the table.
   */
  datatype Attempt = Attempt(nonce: string, expiresAt: U64, verifiedAt: U64, now: U64)

  function TableAfter(attempts: seq<Attempt>): map<string, U64> {
    if attempts == [] then map[]
    else
      var last := attempts[|attempts| - 1];
      Consumed(TableAfter(attempts[..|attempts| - 1]), last.nonce, last.expiresAt, last.now)
  }

  predicate AcceptedAt(attempts: seq<Attempt>, i: nat)
    requires i < |attempts|
  {
    Fresh(TableAfter(attempts[..i]), attempts[i].nonce, attempts[i].now)
  }

  /** Between two uses of a nonce its entry stays unless some reading in between is past its expiry. */
  lemma {:induction false} EntryStays(attempts: seq<Attempt>, i: nat, j: nat)
    requires i < j <= |attempts|
    requires forall k | i < k < j :: attempts[k].nonce != attempts[i].nonce
    ensures attempts[i].nonce in TableAfter(attempts[..j]) <==>
            forall k | i < k < j :: attempts[k].now <= attempts[i].expiresAt
    ensures attempts[i].nonce in TableAfter(attempts[..j]) ==>
            TableAfter(attempts[..j])[attempts[i].nonce] == attempts[i].expiresAt
    decreases j
  {
    assert attempts[..j][..j - 1] == attempts[..j - 1];
    if i + 1 < j {
      EntryStays(attempts, i, j - 1);
    }
  }

  /**
   * Replay, exactly: the next use of a nonce is accepted again if and only if some reading brought to the
   * table since, its own included, was past the expiry of the use before.
   */
  lemma ReplayBoundary(attempts: seq<Attempt>, i: nat, j: nat)
    requires i < j < |attempts| && attempts[i].nonce == attempts[j].nonce
    requires forall k | i < k < j :: attempts[k].nonce != attempts[i].nonce
    ensures AcceptedAt(attempts, j) <==> exists k :: i < k <= j && attempts[i].expiresAt < attempts[k].now
  {
    EntryStays(attempts, i, j);
    if AcceptedAt(attempts, j) && attempts[j].now <= attempts[i].expiresAt {
      assert attempts[i].nonce !in TableAfter(attempts[..j]);
    }
  }

  /** The use of a nonce just before `j`, if there is any since `i`. */
  lemma PreviousUse(attempts: seq<Attempt>, i: nat, j: nat) returns (p: nat)
    requires i < j < |attempts| && attempts[i].nonce == attempts[j].nonce
    ensures i <= p < j && attempts[p].nonce == attempts[j].nonce
    ensures forall k | p < k < j :: attempts[k].nonce != attempts[p].nonce
  {
    p := j - 1;
    while attempts[p].nonce != attempts[j].nonce
      invariant i <= p < j
      invariant forall k | p < k < j :: attempts[k].nonce != attempts[j].nonce
      decreases p
    {
      p := p - 1;
    }
  }

  /** Verification and consumption at one reading of a nondecreasing clock, each nonce with one expiry. */
  predicate OneClock(attempts: seq<Attempt>) {
    && (forall i | 0 <= i < |attempts| :: attempts[i].verifiedAt == attempts[i].now <= attempts[i].expiresAt)
    && (forall i, j | 0 <= i < j < |attempts| :: attempts[i].now <= attempts[j].now)
    && (forall i, j | 0 <= i < j < |attempts| && attempts[i].nonce == attempts[j].nonce ::
          attempts[i].expiresAt == attempts[j].expiresAt)
  }

  /** At most once: under one clock, only the first use of a nonce is accepted. */
  lemma AcceptedAtMostOnce(attempts: seq<Attempt>, i: nat, j: nat)
    requires OneClock(attempts) && i < j < |attempts| && attempts[i].nonce == attempts[j].nonce
    ensures !AcceptedAt(attempts, j)
  {
    var p := PreviousUse(attempts, i, j);
    ReplayBoundary(attempts, p, j);
    forall k | p < k <= j ensures attempts[k].now <= attempts[p].expiresAt {
      assert attempts[k].now <= attempts[j].now <= attempts[j].expiresAt == attempts[p].expiresAt;
    }
  }

  /** The first use is accepted. */
  lemma {:induction false} FirstUseIsAccepted(attempts: seq<Attempt>, j: nat)
    requires j < |attempts| && forall k | 0 <= k < j :: attempts[k].nonce != attempts[j].nonce
    ensures AcceptedAt(attempts, j)
  {
    NeverEntered(attempts[..j], attempts[j].nonce);
  }

  lemma {:induction false} NeverEntered(attempts: seq<Attempt>, nonce: string)
    requires forall k | 0 <= k < |attempts| :: attempts[k].nonce != nonce
    ensures nonce !in TableAfter(attempts)
    decreases |attempts|
  {
    if attempts != [] {
      NeverEntered(attempts[..|attempts| - 1], nonce);
    }
  }

  /** One contract, verified in its last second and brought to the table then and a second later. */
  function TwoUses(c: Contract): seq<Attempt>
    requires c.expiresAt < MAX_U64
  {
    [Attempt(c.nonce, c.expiresAt, c.expiresAt, c.expiresAt),
     Attempt(c.nonce, c.expiresAt, c.expiresAt, c.expiresAt + 1)]
  }

  /**
   * The code reads the clock twice. A contract that verifies in its last second and is consumed in the
   * next is accepted a second time.
   */
  lemma SecondReadingAdmitsReplay<Request(!new)>(h: Hashes<Request>, e: Expected, request: Request, c: Contract)
    requires c.expiresAt < MAX_U64 && Verify(h, e, request, c, c.expiresAt).Accepted?
    ensures AcceptedAt(TwoUses(c), 0) && AcceptedAt(TwoUses(c), 1)
  {
    var attempts := TwoUses(c);
    FirstUseIsAccepted(attempts, 0);
    ReplayBoundary(attempts, 0, 1);
    assert c.expiresAt < attempts[1].now;
  }

  /** Every attempt passed verification, at a reading no later than the one it brings to the table. */
  predicate Verified(attempts: seq<Attempt>) {
    forall i | 0 <= i < |attempts| ::
      && attempts[i].verifiedAt <= attempts[i].now
      && attempts[i].verifiedAt <= attempts[i].expiresAt
      && attempts[i].expiresAt <= attempts[i].verifiedAt + MAX_TTL_SECONDS + CLOCK_SKEW_SECONDS
  }

  /**
   * Every entry expires within 65 seconds of the reading that entered it, and no reading brought to the table
   * since was past its expiry: with both readings of the code, in any order, and any expiries.
   */
  lemma {:induction false} EntriesExpireSoon(attempts: seq<Attempt>, nonce: string) returns (i: nat)
    requires Verified(attempts) && nonce in TableAfter(attempts)
    ensures i < |attempts| && attempts[i].nonce == nonce
    ensures TableAfter(attempts)[nonce] == attempts[i].expiresAt <= attempts[i].now + 65
    ensures forall k | i < k < |attempts| :: attempts[k].nonce != nonce && attempts[k].now <= attempts[i].expiresAt
    decreases |attempts|
  {
    i := |attempts| - 1;
    if nonce != attempts[i].nonce {
      i := EntriesExpireSoon(attempts[..|attempts| - 1], nonce);
    }
  }
}
