/** Authorisation of runtime-control requests: the signed text, its check, and the table of used nonces. */
module RuntimeAuth {
  import opened Decimals
  import opened Identifiers

  const CONTRACT_VERSION := "bmscl.runtime-control.v1"
  const MAX_TTL_SECONDS: nat := 60
  const CLOCK_SKEW_SECONDS: nat := 5
  const MAX_U64: nat := 0xFFFF_FFFF_FFFF_FFFF

  type U64 = n: nat | n <= MAX_U64

  datatype Contract = Contract(
    version: string,
    operation: string,
    tenantId: string,
    shardId: string,
    executionClass: string,
    executionBackend: string,
    runtimeEpoch: U64,
    requestSha256: string,
    issuedAt: U64,
    expiresAt: U64,
    nonce: string,
    signature: string)

  datatype Expected = Expected(
    operation: string, tenantId: string, shardId: string, executionClass: string, executionBackend: string,
    runtimeEpoch: U64)

  /** The hash of a serialised request and the keyed hash of a text, both in lower-case hexadecimal. */
  datatype Hashes<!Request(!new)> = Hashes(sha: Request -> string, mac: string -> string)

  datatype Verdict =
    | Accepted(expiresAt: U64)
    | UnsupportedVersion
    | IdentityMismatch
    | ExpiredOrInvalid
    | InvalidNonce
    | DigestMismatch
    | SignatureMismatch

  function SaturatingAdd(a: U64, b: nat): U64 {
    if a + b <= MAX_U64 then a + b else MAX_U64
  }

  predicate ValidNonce(nonce: string) {
    16 <= |nonce| && ValidName(nonce, "-_")
  }

  /** Not issued in the future beyond the tolerated skew, not expired, and short-lived. */
  predicate Timely(c: Contract, now: U64) {
    && c.issuedAt <= SaturatingAdd(now, CLOCK_SKEW_SECONDS)
    && now <= c.expiresAt
    && c.issuedAt < c.expiresAt
    && c.expiresAt - c.issuedAt <= MAX_TTL_SECONDS
  }

  predicate Names(c: Contract, e: Expected) {
    && c.operation == e.operation && c.tenantId == e.tenantId && c.shardId == e.shardId
    && c.executionClass == e.executionClass && c.executionBackend == e.executionBackend
    && c.runtimeEpoch == e.runtimeEpoch
  }

  /** The eleven signed fields, in order. */
  function Fields(c: Contract, requestSha256: string): seq<string> {
    [c.version, c.operation, c.tenantId, c.shardId, c.executionClass, c.executionBackend, Decimal(c.runtimeEpoch),
     requestSha256, Decimal(c.issuedAt), Decimal(c.expiresAt), c.nonce]
  }

  /** Each line ended by a newline. */
  function Lines(lines: seq<string>): string {
    if lines == [] then "" else lines[0] + "\n" + Lines(lines[1..])
  }

  function Canonical(c: Contract, requestSha256: string): string {
    Lines(Fields(c, requestSha256))
  }

  function Verify<Request(!new)>(h: Hashes<Request>, e: Expected, request: Request, c: Contract, now: U64): Verdict {
    if c.version != CONTRACT_VERSION then UnsupportedVersion
    else if !Names(c, e) then IdentityMismatch
    else if !Timely(c, now) then ExpiredOrInvalid
    else if !ValidNonce(c.nonce) then InvalidNonce
    else if c.requestSha256 != h.sha(request) then DigestMismatch
    else if c.signature != h.mac(Canonical(c, h.sha(request))) then SignatureMismatch
    else Accepted(c.expiresAt)
  }

  /** The contract a holder of the secret makes out for a request. */
  function Sign<Request(!new)>(
      h: Hashes<Request>, e: Expected, request: Request, issuedAt: U64, expiresAt: U64, nonce: string): Contract {
    var unsigned := Contract(
      CONTRACT_VERSION, e.operation, e.tenantId, e.shardId, e.executionClass, e.executionBackend, e.runtimeEpoch,
      h.sha(request), issuedAt, expiresAt, nonce, "");
    unsigned.(signature := h.mac(Canonical(unsigned, h.sha(request))))
  }

  /** 16 to 128 letters, digits, dashes and underscores. */
  predicate IsNonce(nonce: string) {
    && 16 <= |nonce| <= 128
    && forall i | 0 <= i < |nonce| ::
         || 'a' <= nonce[i] <= 'z' || 'A' <= nonce[i] <= 'Z' || '0' <= nonce[i] <= '9' || nonce[i] in {'-', '_'}
  }

  /** Issued at most 5 seconds ahead, not expired, and made out for 1 to 60 seconds. */
  predicate IsCurrent(c: Contract, now: U64) {
    c.issuedAt <= now + 5 && now <= c.expiresAt && c.issuedAt < c.expiresAt <= c.issuedAt + 60
  }

  /** The contracts accepted are the current ones that a holder of the secret makes out for this very request. */
  lemma AcceptedIffSigned<Request(!new)>(h: Hashes<Request>, e: Expected, request: Request, c: Contract, now: U64)
    ensures Verify(h, e, request, c, now).Accepted? <==>
            && IsCurrent(c, now) && IsNonce(c.nonce)
            && c == Sign(h, e, request, c.issuedAt, c.expiresAt, c.nonce)
  {
    if c.version == CONTRACT_VERSION && Names(c, e) && c.requestSha256 == h.sha(request) {
      var unsigned := c.(signature := "");
      assert Fields(unsigned, h.sha(request)) == Fields(c, h.sha(request));
      assert Sign(h, e, request, c.issuedAt, c.expiresAt, c.nonce)
          == c.(signature := h.mac(Canonical(c, h.sha(request))));
    }
  }

  /** What a contract that is not accepted is refused for, first things first. */
  lemma VerifyRefusals<Request(!new)>(h: Hashes<Request>, e: Expected, request: Request, c: Contract, now: U64)
    ensures var named := Expected(
              c.operation, c.tenantId, c.shardId, c.executionClass, c.executionBackend, c.runtimeEpoch);
            Verify(h, e, request, c, now) ==
            if c.version != "bmscl.runtime-control.v1" then UnsupportedVersion
            else if named != e then IdentityMismatch
            else if !IsCurrent(c, now) then ExpiredOrInvalid
            else if !IsNonce(c.nonce) then InvalidNonce
            else if c.requestSha256 != h.sha(request) then DigestMismatch
            else if c != Sign(h, e, request, c.issuedAt, c.expiresAt, c.nonce) then SignatureMismatch
            else Accepted(c.expiresAt)
  {
    AcceptedIffSigned(h, e, request, c, now);
  }

  function LineThen(line: string, rest: string): string {
    line + "\n" + rest
  }

  /** The signing text: the eleven fields in this order, each on a line of its own. */
  lemma CanonicalText(c: Contract, sha: string)
    ensures Canonical(c, sha) ==
            LineThen(c.version, LineThen(c.operation, LineThen(c.tenantId, LineThen(c.shardId,
            LineThen(c.executionClass, LineThen(c.executionBackend, LineThen(Decimal(c.runtimeEpoch), LineThen(sha,
            LineThen(Decimal(c.issuedAt), LineThen(Decimal(c.expiresAt), LineThen(c.nonce, "")))))))))))
  {
    var f := Fields(c, sha);
    assert f == f[0..];
    assert f[11..] == [];
    forall i | 0 <= i < 11 ensures Lines(f[i..]) == LineThen(f[i], Lines(f[i + 1..])) {
      assert f[i..][0] == f[i] && f[i..][1..] == f[i + 1..];
    }
    assert Lines(f[0..]) == LineThen(f[0], Lines(f[1..])) && Lines(f[1..]) == LineThen(f[1], Lines(f[2..]));
    assert Lines(f[2..]) == LineThen(f[2], Lines(f[3..])) && Lines(f[3..]) == LineThen(f[3], Lines(f[4..]));
    assert Lines(f[4..]) == LineThen(f[4], Lines(f[5..])) && Lines(f[5..]) == LineThen(f[5], Lines(f[6..]));
    assert Lines(f[6..]) == LineThen(f[6], Lines(f[7..])) && Lines(f[7..]) == LineThen(f[7], Lines(f[8..]));
    assert Lines(f[8..]) == LineThen(f[8], Lines(f[9..])) && Lines(f[9..]) == LineThen(f[9], Lines(f[10..]));
    assert Lines(f[10..]) == LineThen(f[10], Lines(f[11..]));
  }

  /** What the handlers expect: one of their operations, and class and backend by their names. */
  predicate FromHandler(e: Expected) {
    && e.operation in {"ensure", "start", "activate", "touch", "critical-section", "invoke", "warm_idle", "hibernate",
                       "terminate"}
    && e.executionClass in {"faas", "phoenix", "durable_actor"}
    && e.executionBackend in {"bare_process", "firecracker"}
    && ValidSubject(e.tenantId) && ValidSubject(e.shardId)
  }

  predicate OneLine(text: string) {
    '\n' !in text
  }

  lemma FirstLineIsUnique(a: string, b: string, restA: string, restB: string)
    requires OneLine(a) && OneLine(b) && a + "\n" + restA == b + "\n" + restB
    ensures a == b && restA == restB
  {
    var text := a + "\n" + restA;
    assert text == b + "\n" + restB;
    assert forall i | 0 <= i < |a| :: text[i] == a[i];
    assert forall i | 0 <= i < |b| :: text[i] == b[i];
    assert text[|a|] == '\n' && text[|b|] == '\n';
    assert |a| == |b|;
    assert text[..|a|] == a && text[..|b|] == b;
    assert text[|a| + 1..] == restA && text[|b| + 1..] == restB;
  }

  /** Lists of lines can be read back from their text. */
  lemma {:induction false} LinesAreUnique(a: seq<string>, b: seq<string>)
    requires (forall i | 0 <= i < |a| :: OneLine(a[i])) && (forall i | 0 <= i < |b| :: OneLine(b[i]))
    requires Lines(a) == Lines(b)
    ensures a == b
  {
    if a == [] {
      assert b == [];
    } else {
      assert b != [];
      FirstLineIsUnique(a[0], b[0], Lines(a[1..]), Lines(b[1..]));
      LinesAreUnique(a[1..], b[1..]);
    }
  }

  lemma HandlerNamesAreLines(e: Expected)
    requires FromHandler(e)
    ensures OneLine(e.operation) && OneLine(e.executionClass) && OneLine(e.executionBackend)
    ensures OneLine(e.tenantId) && OneLine(e.shardId)
  {
    assert ValidSubject(e.tenantId) && ValidSubject(e.shardId);
  }

  lemma NonceIsLine(nonce: string)
    requires ValidNonce(nonce)
    ensures OneLine(nonce)
  {
  }

  lemma DecimalIsLine(n: nat)
    ensures OneLine(Decimal(n))
  {
    DecimalIsDigits(n);
  }

  /** Every signed field of an accepted request is one line. */
  lemma AcceptedFieldsAreLines<Request(!new)>(h: Hashes<Request>, e: Expected, request: Request, c: Contract, now: U64)
    requires FromHandler(e) && OneLine(h.sha(request))
    ensures Verify(h, e, request, c, now).Accepted? ==> forall i | 0 <= i < 11 :: OneLine(Fields(c, h.sha(request))[i])
  {
    if !Verify(h, e, request, c, now).Accepted? {
      return;
    }
    HandlerNamesAreLines(e);
    NonceIsLine(c.nonce);
    DecimalIsLine(c.runtimeEpoch);
    DecimalIsLine(c.issuedAt);
    DecimalIsLine(c.expiresAt);
    VersionIsLine(c.version);
    AllLines(Fields(c, h.sha(request)));
  }

  lemma VersionIsLine(version: string)
    requires version == CONTRACT_VERSION
    ensures OneLine(version)
  {
  }

  lemma AllLines(f: seq<string>)
    requires |f| == 11
    requires OneLine(f[0]) && OneLine(f[1]) && OneLine(f[2]) && OneLine(f[3]) && OneLine(f[4]) && OneLine(f[5])
    requires OneLine(f[6]) && OneLine(f[7]) && OneLine(f[8]) && OneLine(f[9]) && OneLine(f[10])
    ensures forall i | 0 <= i < 11 :: OneLine(f[i])
  {
  }

  /**
   * The signing text is unambiguous: two accepted requests with the same text agree in all eleven
   * signed fields.
   */
  lemma SigningTextIsUnambiguous<Request(!new)>(
      h: Hashes<Request>,
      e1: Expected, r1: Request, c1: Contract, t1: U64,
      e2: Expected, r2: Request, c2: Contract, t2: U64)
    requires FromHandler(e1) && Verify(h, e1, r1, c1, t1).Accepted? && OneLine(h.sha(r1))
    requires FromHandler(e2) && Verify(h, e2, r2, c2, t2).Accepted? && OneLine(h.sha(r2))
    requires Canonical(c1, h.sha(r1)) == Canonical(c2, h.sha(r2))
    ensures c1.(signature := c2.signature) == c2
  {
    AcceptedFieldsAreLines(h, e1, r1, c1, t1);
    AcceptedFieldsAreLines(h, e2, r2, c2, t2);
    var f1, f2 := Fields(c1, h.sha(r1)), Fields(c2, h.sha(r2));
    LinesAreUnique(f1, f2);
    DecimalInjective(c1.runtimeEpoch, c2.runtimeEpoch);
    DecimalInjective(c1.issuedAt, c2.issuedAt);
    DecimalInjective(c1.expiresAt, c2.expiresAt);
    assert f1[0] == f2[0] && f1[1] == f2[1] && f1[2] == f2[2] && f1[3] == f2[3] && f1[4] == f2[4] && f1[5] == f2[5];
    assert f1[6] == f2[6] && f1[7] == f2[7] && f1[8] == f2[8] && f1[9] == f2[9] && f1[10] == f2[10];
  }

  /** An accepted contract lasts at most the lifetime and the skew beyond the reading that accepted it. */
  lemma AcceptedExpiresSoon<Request(!new)>(h: Hashes<Request>, e: Expected, request: Request, c: Contract, now: U64)
    ensures var verdict := Verify(h, e, request, c, now);
            verdict.Accepted? ==> now <= verdict.expiresAt <= now + MAX_TTL_SECONDS + CLOCK_SKEW_SECONDS
  {
  }

  type Octet = bv8

  /** Compares without an early exit. */
  method ConstantTimeEq(left: seq<Octet>, right: seq<Octet>) returns (equal: bool)
    ensures equal <==> left == right
  {
    if |left| != |right| {
      return false;
    }
    var diff: Octet := 0;
    for i := 0 to |left|
      invariant diff == 0 <==> left[..i] == right[..i]
    {
      DiffStep(diff, left[i], right[i]);
      assert left[..i + 1] == left[..i] + [left[i]] && right[..i + 1] == right[..i] + [right[i]];
      diff := diff | (left[i] ^ right[i]);
    }
    assert left[..|left|] == left && right[..|left|] == right;
    return diff == 0;
  }

  lemma DiffStep(diff: Octet, a: Octet, b: Octet)
    ensures diff | (a ^ b) == 0 <==> diff == 0 && a == b
  {
  }

  const BLOCK: nat := 64

  /** The key of section 2 of RFC 2104: hashed when longer than a block, then padded with zeros. */
  function BlockKey(hash: seq<Octet> -> seq<Octet>, secret: seq<Octet>): seq<Octet> {
    var key := if BLOCK < |secret| then hash(secret) else secret;
    if |key| <= BLOCK then key + seq(BLOCK - |key|, i => 0) else key
  }

  function Masked(key: seq<Octet>, mask: Octet): seq<Octet> {
    seq(|key|, i requires 0 <= i < |key| => Combine(mask, key[i]))
  }

  /** The exclusive or. */
  function Combine(a: Octet, b: Octet): Octet {
    a ^ b
  }

  /** H(K XOR opad, H(K XOR ipad, text)). */
  function Hmac(hash: seq<Octet> -> seq<Octet>, secret: seq<Octet>, message: seq<Octet>): seq<Octet> {
    var key := BlockKey(hash, secret);
    hash(Masked(key, 0x5c) + hash(Masked(key, 0x36) + message))
  }

  /** Byte `i` of the block key. */
  function KeyByte(hash: seq<Octet> -> seq<Octet>, secret: seq<Octet>, i: nat): Octet
    requires |hash(secret)| == 32
  {
    if 64 < |secret| then if i < 32 then hash(secret)[i] else 0
    else if i < |secret| then secret[i] else 0
  }

  /** Byte by byte, as section 2 of RFC 2104 says: the pads are 64 times 36 and 5C hexadecimal, each against the key. */
  lemma HmacByBytes(hash: seq<Octet> -> seq<Octet>, secret: seq<Octet>, message: seq<Octet>, inner: seq<Octet>,
                    outer: seq<Octet>)
    requires forall bytes :: |hash(bytes)| == 32
    requires |inner| == 64 && |outer| == 64
    requires forall i | 0 <= i < 64 :: inner[i] == 0x36 ^ KeyByte(hash, secret, i)
    requires forall i | 0 <= i < 64 :: outer[i] == 0x5c ^ KeyByte(hash, secret, i)
    ensures Hmac(hash, secret, message) == hash(outer + hash(inner + message))
  {
    var key := BlockKey(hash, secret);
    assert |key| == 64 && forall i | 0 <= i < 64 :: key[i] == KeyByte(hash, secret, i);
    assert Masked(key, 0x36) == inner && Masked(key, 0x5c) == outer;
  }

  method PadToBlock(source: seq<Octet>) returns (key: array<Octet>)
    requires |source| <= BLOCK
    ensures fresh(key) && key[..] == source + seq(BLOCK - |source|, i => 0)
  {
    key := new Octet[BLOCK](i => 0);
    for i := 0 to |source|
      invariant forall j | 0 <= j < i :: key[j] == source[j]
      invariant forall j | i <= j < BLOCK :: key[j] == 0
    {
      key[i] := source[i];
    }
  }

  /** A block filled with `mask`, then combined with the key in place. */
  method MaskKey(key: array<Octet>, mask: Octet) returns (pad: array<Octet>)
    requires key.Length == BLOCK
    ensures fresh(pad) && pad[..] == Masked(key[..], mask)
  {
    pad := new Octet[BLOCK](i => mask);
    for i := 0 to BLOCK
      invariant forall j | 0 <= j < i :: pad[j] == Combine(mask, key[j])
      invariant forall j | i <= j < BLOCK :: pad[j] == mask
    {
      pad[i] := Combine(pad[i], key[i]);
    }
    MaskedAt(key[..], mask, pad[..]);
  }

  lemma MaskedAt(key: seq<Octet>, mask: Octet, pad: seq<Octet>)
    requires |pad| == |key| && forall j | 0 <= j < |key| :: pad[j] == Combine(mask, key[j])
    ensures pad == Masked(key, mask)
  {
  }

  method ComputeHmac(hash: seq<Octet> -> seq<Octet>, secret: seq<Octet>, message: seq<Octet>) returns (mac: seq<Octet>)
    requires forall bytes :: |hash(bytes)| == 32
    ensures mac == Hmac(hash, secret, message)
  {
    var source := secret;
    if |secret| > BLOCK {
      source := hash(secret);
    }
    var key := PadToBlock(source);
    var ipad := MaskKey(key, 0x36);
    var opad := MaskKey(key, 0x5c);
    mac := hash(opad[..] + hash(ipad[..] + message));
  }
}
