/**
 * The Go SDK's `Client`: `NewClient`, `CreateReceipt`, which copies the
 * caller's extensions, sets the environment record and signs the eight
 * core fields, `VerifyReceipt` with its per-profile thresholds, and the
 * signature check over the recursively key-sorted signing map.
 *
 * Go's `int64` arithmetic wraps around; `Sub64` models it, and the
 * freshness check as written is kept beside the exact one the model uses.
 * The clock and the nonce bytes are parameters.
 */
module GoClient {
  import opened Wrappers
  import opened Values
  import opened Primitives
  import opened Freshness
  import CoreTypes
  import Decimal

  // ---------------------------------------------------------------- int64

  const INT64_MIN: int := -0x8000_0000_0000_0000
  const INT64_MAX: int := 0x7FFF_FFFF_FFFF_FFFF
  const TWO_64: int := 0x1_0000_0000_0000_0000

  type Int64 = x: int | INT64_MIN <= x <= INT64_MAX

  /** Two's-complement wrap-around: the `int64` congruent to `x` modulo 2^64. */
  function Wrap64(x: int): (r: Int64)
    ensures (x - r) % TWO_64 == 0
    ensures INT64_MIN <= x <= INT64_MAX ==> r == x
  {
    (x - INT64_MIN) % TWO_64 + INT64_MIN
  }

  /** `a - b` on `int64`. */
  function Sub64(a: Int64, b: Int64): Int64 {
    Wrap64(a - b)
  }

  // ---------------------------------------------------------------- client

  const DEFAULT_POLICY := "no_retention"
  const CODE_REF_PREFIX := "go-sdk:"
  const LOG_WARNING := "transparency log verification not yet implemented"

  /** The `environment` extension every Go receipt carries. */
  const GO_ENVIRONMENT := TMap(map["provider" := TStr("tecp-sdk-go"), "version" := TStr("0.1.0")])

  datatype ClientOptions = ClientOptions(privateKey: Option<Bytes>, profile: string, logUrl: string)

  datatype Client = Client(privateKey: Option<Bytes>, profile: string, logUrl: string, options: ClientOptions)

  /** `NewClient`: an empty profile becomes `ProfileV01`; everything else is kept. */
  function NewClient(options: ClientOptions): (c: Client)
    ensures c.profile == (if options.profile == "" then PROFILE_V01 else options.profile)
    ensures c.profile != ""
    ensures c.privateKey == options.privateKey && c.logUrl == options.logUrl && c.options == options
  {
    var profile := if options.profile == "" then PROFILE_V01 else options.profile;
    Client(options.privateKey, profile, options.logUrl, options)
  }

  /**
   * A Go `Receipt`. `PolicyIDs` distinguishes a nil slice (`None`) from an
   * empty one; `Extensions` are inlined next to the core fields.
   */
  datatype Receipt = Receipt(
    version: string, codeRef: string, timestamp: Int64, nonce: string, inputHash: string, outputHash: string,
    policyIds: Option<seq<string>>, signature: string, publicKey: string, extensions: map<string, Tree>)

  datatype CreateReceiptOptions = CreateReceiptOptions(
    input: Bytes, output: Bytes, policies: Option<seq<string>>, codeRef: string,
    extensions: Option<map<string, Tree>>)

  // ---------------------------------------------------------------- canonical encoding

  /**
   * `sortKeys`: rebuilds every map and slice with its elements sorted
   * recursively. A Go map has no order, so the rebuilt value is the value
   * itself, at every depth; slices keep their order and length.
   */
  function SortKeys(t: Tree): (r: Tree)
    ensures r == t
  {
    match t
    case TMap(m) =>
      var result := map k | k in m :: SortKeys(m[k]);
      assert result == m;
      TMap(result)
    case TList(items) =>
      var result := seq(|items|, i requires 0 <= i < |items| => SortKeys(items[i]));
      assert result == items;
      TList(result)
    case _ => t
  }

  /** A `[]string` as stored in an `interface{}`: nil is encoded as CBOR null. */
  function StringsTree(xs: Option<seq<string>>): Tree {
    match xs
    case None => TNull
    case Some(ss) => TList(seq(|ss|, i requires 0 <= i < |ss| => TStr(ss[i])))
  }

  /** The `signingData` map: the eight signed fields; `Signature` and `Extensions` are not among them. */
  function SigningData(r: Receipt): Tree {
    TMap(map[
      "version" := TStr(r.version), "code_ref" := TStr(r.codeRef), "ts" := TInt(r.timestamp),
      "nonce" := TStr(r.nonce), "input_hash" := TStr(r.inputHash), "output_hash" := TStr(r.outputHash),
      "policy_ids" := StringsTree(r.policyIds), "pubkey" := TStr(r.publicKey)])
  }

  /**
   * The signing map has exactly the eight signed keys, each holding its
   * field: no `sig`, no extension.
   */
  lemma SigningDataKeys(r: Receipt)
    ensures var t := SigningData(r);
      && t.TMap? && t.m.Keys == {"version", "code_ref", "ts", "nonce", "input_hash", "output_hash", "policy_ids", "pubkey"}
      && "sig" !in t.m
      && t.m["version"] == TStr(r.version) && t.m["code_ref"] == TStr(r.codeRef) && t.m["ts"] == TInt(r.timestamp)
      && t.m["nonce"] == TStr(r.nonce) && t.m["input_hash"] == TStr(r.inputHash)
      && t.m["output_hash"] == TStr(r.outputHash) && t.m["policy_ids"] == StringsTree(r.policyIds)
      && t.m["pubkey"] == TStr(r.publicKey)
  {
  }

  /** `canonicalCBOR`: sort, then encode with the canonical encoding mode. */
  function CanonicalCBOR(p: Primitives, t: Tree): (r: Bytes)
    ensures r == p.cborGo(t)
  {
    p.cborGo(SortKeys(t))
  }

  /** The receipt carries a signature made with `sk` over its own signing map, and publishes `sk`'s public key. */
  predicate SignedBy(p: Primitives, sk: Bytes, r: Receipt) {
    && r.signature == p.b64encode(p.sign(sk, CanonicalCBOR(p, SigningData(r))))
    && r.publicKey == p.b64encode(p.publicKeyOf(sk))
  }

  /** Neither the signature nor the extensions enter the signing map. */
  lemma SigningDataIgnoresUnsignedFields(r: Receipt, sig: string, ext: map<string, Tree>)
    ensures SigningData(r.(signature := sig, extensions := ext)) == SigningData(r)
  {
  }

  // ---------------------------------------------------------------- creation

  datatype CreateError = PrivateKeyRequired | NonceFailed

  /** `for k, v := range options.Extensions { receipt.Extensions[k] = v }`: the copied keys win. */
  method CopyExtensions(dst: map<string, Tree>, src: map<string, Tree>) returns (r: map<string, Tree>)
    ensures r == dst + src
  {
    r := dst;
    var remaining := src.Keys;
    while remaining != {}
      invariant remaining <= src.Keys && CopiedExcept(r, dst, src, remaining)
      decreases |remaining|
    {
      var k :| k in remaining;
      CopyStep(r, dst, src, remaining, k);
      r := r[k := src[k]];
      remaining := remaining - {k};
    }
    CopyDone(r, dst, src);
  }

  /** `r` is `dst` with every entry of `src` whose key is not in `remaining` written over it. */
  ghost predicate CopiedExcept(r: map<string, Tree>, dst: map<string, Tree>, src: map<string, Tree>, remaining: set<string>) {
    && (forall k :: k in r <==> k in dst || (k in src && k !in remaining))
    && (forall k | k in r :: r[k] == if k in src && k !in remaining then src[k] else dst[k])
  }

  /** Copying one more entry of `src` takes its key out of the remaining ones. */
  lemma CopyStep(r: map<string, Tree>, dst: map<string, Tree>, src: map<string, Tree>, remaining: set<string>, k: string)
    requires CopiedExcept(r, dst, src, remaining) && k in remaining && k in src
    ensures CopiedExcept(r[k := src[k]], dst, src, remaining - {k})
  {
  }

  /** Once no key remains, the copy is `dst` overlaid by `src`. */
  lemma CopyDone(r: map<string, Tree>, dst: map<string, Tree>, src: map<string, Tree>)
    requires CopiedExcept(r, dst, src, {})
    ensures r == dst + src
  {
  }

  /**
   * `CreateReceipt`: fails without a private key or without nonce bytes;
   * otherwise fills in the defaults (an empty code reference, a nil policy
   * list), copies the extensions, sets `environment` and signs the eight
   * core fields.
   */
  method CreateReceipt(p: Primitives, c: Client, options: CreateReceiptOptions, clockMs: Int64, entropy: Option<Bytes>)
    returns (r: Result<Receipt, CreateError>)
    ensures c.privateKey.None? ==> r == Err(PrivateKeyRequired)
    ensures c.privateKey.Some? && entropy.None? ==> r == Err(NonceFailed)
    ensures c.privateKey.Some? && entropy.Some? ==> r.Ok?
    ensures r.Ok? ==> c.privateKey.Some? && entropy.Some? && var x := r.value;
      && x.version == CoreTypes.TECP_VERSION && x.timestamp == clockMs
      && x.nonce == p.b64encode(entropy.value)
      && x.inputHash == p.b64encode(p.sha256(options.input)) && x.outputHash == p.b64encode(p.sha256(options.output))
      && x.codeRef == (if options.codeRef == "" then CODE_REF_PREFIX + Decimal.IntString(clockMs) else options.codeRef)
      && x.policyIds == (if options.policies.None? then Some([DEFAULT_POLICY]) else options.policies)
      && x.extensions == options.extensions.GetOr(map[])["environment" := GO_ENVIRONMENT]
      && SignedBy(p, c.privateKey.value, x)
  {
    if c.privateKey.None? {
      return Err(PrivateKeyRequired);
    }
    var sk := c.privateKey.value;
    if entropy.None? {
      return Err(NonceFailed);
    }
    var receipt := UnsignedReceipt(p, sk, options, clockMs, entropy.value);
    var signingData := SigningData(receipt);
    var canonical := CanonicalCBOR(p, signingData);
    var signature := p.sign(sk, canonical);
    SigningDataIgnoresUnsignedFields(receipt, p.b64encode(signature), receipt.extensions);
    receipt := receipt.(signature := p.b64encode(signature));
    return Ok(receipt);
  }

  /** The receipt `CreateReceipt` assembles before signing: defaults filled in, extensions copied, no signature. */
  method UnsignedReceipt(p: Primitives, sk: Bytes, options: CreateReceiptOptions, timestamp: Int64, nonce: Bytes)
    returns (receipt: Receipt)
    ensures receipt.version == CoreTypes.TECP_VERSION && receipt.timestamp == timestamp
    ensures receipt.nonce == p.b64encode(nonce) && receipt.signature == ""
    ensures receipt.inputHash == p.b64encode(p.sha256(options.input))
    ensures receipt.outputHash == p.b64encode(p.sha256(options.output))
    ensures receipt.codeRef == (if options.codeRef == "" then CODE_REF_PREFIX + Decimal.IntString(timestamp) else options.codeRef)
    ensures receipt.policyIds == (if options.policies.None? then Some([DEFAULT_POLICY]) else options.policies)
    ensures receipt.extensions == options.extensions.GetOr(map[])["environment" := GO_ENVIRONMENT]
    ensures receipt.publicKey == p.b64encode(p.publicKeyOf(sk))
  {
    var inputHash, outputHash := p.sha256(options.input), p.sha256(options.output);
    var codeRef := options.codeRef;
    if codeRef == "" {
      codeRef := CODE_REF_PREFIX + Decimal.IntString(timestamp);
    }
    var policies := options.policies;
    if policies.None? {
      policies := Some([DEFAULT_POLICY]);
    }
    var publicKey := p.publicKeyOf(sk);
    receipt := Receipt(
      CoreTypes.TECP_VERSION, codeRef, timestamp, p.b64encode(nonce), p.b64encode(inputHash), p.b64encode(outputHash),
      policies, "", p.b64encode(publicKey), map[]);
    if options.extensions.Some? {
      var copied := CopyExtensions(receipt.extensions, options.extensions.value);
      assert copied == options.extensions.value;
      receipt := receipt.(extensions := copied);
    }
    receipt := receipt.(extensions := receipt.extensions["environment" := GO_ENVIRONMENT]);
  }

  // ---------------------------------------------------------------- verification

  /** Why `verifySignature` refused a receipt. */
  datatype SigError =
    | InvalidKeyEncoding
    | InvalidKeySize(size: nat)
    | InvalidSignatureEncoding
    | Mismatch

  /**
   * `verifySignature`: the public key must be standard base64 of exactly 32
   * bytes, the signature must be standard base64, and Ed25519 must accept
   * it over the canonical encoding of the signing map.
   */
  function VerifySignature(p: Primitives, r: Receipt): (e: Option<SigError>)
    ensures e == Some(InvalidKeyEncoding) <==> p.b64decodeStrict(r.publicKey).None?
    ensures (exists n :: e == Some(InvalidKeySize(n))) <==>
              p.b64decodeStrict(r.publicKey).Some? && |p.b64decodeStrict(r.publicKey).value| != PUBLIC_KEY_SIZE
    ensures e == Some(InvalidSignatureEncoding) <==>
              && p.b64decodeStrict(r.publicKey).Some? && |p.b64decodeStrict(r.publicKey).value| == PUBLIC_KEY_SIZE
              && p.b64decodeStrict(r.signature).None?
    ensures e.None? || e == Some(Mismatch) <==>
              && p.b64decodeStrict(r.publicKey).Some? && |p.b64decodeStrict(r.publicKey).value| == PUBLIC_KEY_SIZE
              && p.b64decodeStrict(r.signature).Some?
    ensures e.None? <==>
              && p.b64decodeStrict(r.publicKey).Some? && |p.b64decodeStrict(r.publicKey).value| == PUBLIC_KEY_SIZE
              && p.b64decodeStrict(r.signature).Some?
              && p.verify(p.b64decodeStrict(r.publicKey).value, CanonicalCBOR(p, SigningData(r)), p.b64decodeStrict(r.signature).value)
  {
    match p.b64decodeStrict(r.publicKey)
    case None => Some(InvalidKeyEncoding)
    case Some(publicKey) =>
      if |publicKey| != PUBLIC_KEY_SIZE then Some(InvalidKeySize(|publicKey|))
      else match p.b64decodeStrict(r.signature)
        case None => Some(InvalidSignatureEncoding)
        case Some(signature) =>
          if !p.verify(publicKey, CanonicalCBOR(p, SigningData(r)), signature) then Some(Mismatch) else None
  }

  datatype VerifyOptions = VerifyOptions(requireLog: bool, profile: string, logUrl: string)

  /** The messages `VerifyReceipt` collects, one constructor per message. */
  datatype VerifyError =
    | InvalidVersion(version: string)
    | TooOld(age: int, maxAge: int)
    | InFuture(skew: int, maxSkew: int)
    | SignatureFailed(cause: SigError)
    | StrictRequiresPolicy

  datatype VerificationResult = VerificationResult(
    valid: bool, errors: seq<VerifyError>, warnings: seq<string>, profile: string, errorCodes: seq<string>)

  /** `options.Profile`, or the client's profile when it is empty. */
  function EffectiveProfile(c: Client, options: VerifyOptions): string {
    if options.profile == "" then c.profile else options.profile
  }

  function VersionErrors(r: Receipt): (es: seq<VerifyError>)
    ensures es == [] <==> r.version == CoreTypes.TECP_VERSION
  {
    if r.version != CoreTypes.TECP_VERSION then [InvalidVersion(r.version)] else []
  }

  /**
   * The age test, then the skew test, on exact differences. This is the
   * corrected form of the `int64` computation in the source; see
   * `FreshnessAsWritten`.
   */
  function TimestampErrors(ts: int, now: int, limits: Limits): (es: seq<VerifyError>)
    ensures |es| <= 1
    ensures es == [] <==> InWindow(ts, now, limits.maxAgeMs, limits.maxSkewMs)
    ensures es != [] ==> es[0] == TooOld(now - ts, limits.maxAgeMs) || es[0] == InFuture(ts - now, limits.maxSkewMs)
    ensures now - ts > limits.maxAgeMs ==> es == [TooOld(now - ts, limits.maxAgeMs)]
    ensures now - ts <= limits.maxAgeMs && ts - now > limits.maxSkewMs ==> es == [InFuture(ts - now, limits.maxSkewMs)]
  {
    ClassifiersAcceptWindow(ts, now, limits.maxAgeMs, limits.maxSkewMs);
    match ClassifyAgeFirst(ts, now, limits.maxAgeMs, limits.maxSkewMs)
    case Expired => [TooOld(now - ts, limits.maxAgeMs)]
    case Skew => [InFuture(ts - now, limits.maxSkewMs)]
    case OK => []
  }

  function SignatureErrors(p: Primitives, r: Receipt): (es: seq<VerifyError>)
    ensures es == [] <==> VerifySignature(p, r).None?
  {
    match VerifySignature(p, r)
    case None => []
    case Some(e) => [SignatureFailed(e)]
  }

  /** `len(receipt.PolicyIDs) == 0` holds for a nil slice and for an empty one. */
  function PolicyErrors(profile: string, r: Receipt): (es: seq<VerifyError>)
    ensures es == [] <==> !RequiresPolicies(profile) || (r.policyIds.Some? && r.policyIds.value != [])
  {
    if profile == PROFILE_STRICT && |r.policyIds.GetOr([])| == 0 then [StrictRequiresPolicy] else []
  }

  /** The messages `VerifyReceipt` collects, in its order. */
  function VerifyErrors(p: Primitives, c: Client, r: Receipt, options: VerifyOptions, now: Int64): seq<VerifyError> {
    var profile := EffectiveProfile(c, options);
    VersionErrors(r) + TimestampErrors(r.timestamp, now, ProfileLimits(profile)) + SignatureErrors(p, r)
    + PolicyErrors(profile, r)
  }

  /** The `switch profile` in `VerifyReceipt`: the protocol defaults, overridden for lite and strict. */
  method Thresholds(profile: string) returns (maxAge: int, maxSkew: int)
    ensures Limits(maxAge, maxSkew) == ProfileLimits(profile)
  {
    maxAge := CoreTypes.MAX_RECEIPT_AGE_MS;
    maxSkew := CoreTypes.MAX_CLOCK_SKEW_MS;
    if profile == PROFILE_LITE {
      maxAge := 7 * 24 * 60 * 60 * 1000;
      maxSkew := 15 * 60 * 1000;
    } else if profile == PROFILE_STRICT {
      maxAge := 60 * 60 * 1000;
      maxSkew := 60 * 1000;
    }
  }

  /** The age and skew tests of `VerifyReceipt`, on exact differences. */
  method CheckTimestamp(ts: Int64, now: Int64, maxAge: int, maxSkew: int) returns (errors: seq<VerifyError>)
    ensures errors == TimestampErrors(ts, now, Limits(maxAge, maxSkew))
  {
    var age: int := now - ts;
    var skew: int := ts - now;
    errors := [];
    if age > maxAge {
      errors := errors + [TooOld(age, maxAge)];
    } else if skew > maxSkew {
      errors := errors + [InFuture(skew, maxSkew)];
    }
  }

  /**
   * `VerifyReceipt`: picks the thresholds of `options.Profile` (or of the
   * client's profile), runs every check and collects one message per
   * failing check; `Valid` exactly when nothing was collected.
   */
  method VerifyReceipt(p: Primitives, c: Client, receipt: Receipt, options: VerifyOptions, now: Int64)
    returns (result: VerificationResult)
    ensures result.valid <==> result.errors == []
    ensures result.errors == VerifyErrors(p, c, receipt, options, now)
    ensures result.warnings == (if options.requireLog then [LOG_WARNING] else [])
    ensures result.profile == EffectiveProfile(c, options) && result.errorCodes == []
  {
    var errors: seq<VerifyError> := [];
    var warnings: seq<string> := [];

    if receipt.version != CoreTypes.TECP_VERSION {
      errors := errors + [InvalidVersion(receipt.version)];
    }

    var profile := options.profile;
    if profile == "" {
      profile := c.profile;
    }
    var maxAge, maxSkew := Thresholds(profile);

    ghost var afterVersion := errors;
    assert afterVersion == VersionErrors(receipt);
    assert profile == EffectiveProfile(c, options);
    var timestampErrors := CheckTimestamp(receipt.timestamp, now, maxAge, maxSkew);
    errors := errors + timestampErrors;

    ghost var afterTimestamp := errors;
    var sigErr := VerifySignature(p, receipt);
    if sigErr.Some? {
      errors := errors + [SignatureFailed(sigErr.value)];
    }
    assert errors == afterTimestamp + SignatureErrors(p, receipt);

    ghost var afterSignature := errors;
    if profile == PROFILE_STRICT && |receipt.policyIds.GetOr([])| == 0 {
      errors := errors + [StrictRequiresPolicy];
    }
    assert errors == afterSignature + PolicyErrors(profile, receipt);

    if options.requireLog {
      warnings := warnings + [LOG_WARNING];
    }

    result := VerificationResult(|errors| == 0, errors, warnings, profile, []);
  }

  // ---------------------------------------------------------------- properties

  /** A receipt is valid exactly when its version, freshness, signature and policy checks all pass. */
  lemma ValidIffChecksPass(p: Primitives, c: Client, r: Receipt, options: VerifyOptions, now: Int64)
    ensures VerifyErrors(p, c, r, options, now) == []
            <==> && r.version == CoreTypes.TECP_VERSION
                 && InWindow(r.timestamp, now, ProfileLimits(EffectiveProfile(c, options)).maxAgeMs,
                             ProfileLimits(EffectiveProfile(c, options)).maxSkewMs)
                 && VerifySignature(p, r).None?
                 && (!RequiresPolicies(EffectiveProfile(c, options)) || (r.policyIds.Some? && r.policyIds.value != []))
  {
  }

  /**
   * `options.Profile` selects the thresholds: a v0.1 client asked to verify
   * under the strict profile rejects a two-hour-old receipt as too old.
   */
  lemma OptionsProfileSetsThresholds(p: Primitives, c: Client, r: Receipt, options: VerifyOptions, now: Int64)
    requires c.profile == PROFILE_V01 && options.profile == PROFILE_STRICT
    requires r.timestamp == now - 2 * HOUR_MS
    ensures TooOld(2 * HOUR_MS, HOUR_MS) in VerifyErrors(p, c, r, options, now)
  {
    var es := VerifyErrors(p, c, r, options, now);
    assert TimestampErrors(r.timestamp, now, ProfileLimits(PROFILE_STRICT)) == [TooOld(2 * HOUR_MS, HOUR_MS)];
    assert es[|VersionErrors(r)|] == TooOld(2 * HOUR_MS, HOUR_MS);
  }

  /** A receipt signed with `sk` passes the signature check. */
  lemma SignedReceiptPassesSignatureCheck(p: Primitives, sk: Bytes, r: Receipt)
    requires Sound(p) && SignedBy(p, sk, r)
    ensures VerifySignature(p, r).None?
  {
    assert p.b64decodeStrict(r.publicKey) == Some(p.publicKeyOf(sk));
    assert p.b64decodeStrict(r.signature) == Some(p.sign(sk, CanonicalCBOR(p, SigningData(r))));
  }

  /**
   * Round trip: a receipt `CreateReceipt` returns passes `VerifyReceipt`
   * while it is fresh under the profile in force, unless that profile is
   * strict and the caller passed an empty, non-nil policy list.
   */
  lemma CreatedReceiptVerifies(
    p: Primitives, c: Client, sk: Bytes, r: Receipt, options: VerifyOptions, now: Int64)
    requires Sound(p) && SignedBy(p, sk, r) && r.version == CoreTypes.TECP_VERSION
    requires InWindow(r.timestamp, now, ProfileLimits(EffectiveProfile(c, options)).maxAgeMs,
                      ProfileLimits(EffectiveProfile(c, options)).maxSkewMs)
    requires !RequiresPolicies(EffectiveProfile(c, options)) || r.policyIds != Some([])
    requires r.policyIds.Some?
    ensures VerifyErrors(p, c, r, options, now) == []
  {
    SignedReceiptPassesSignatureCheck(p, sk, r);
  }

  /**
   * Unlike the Python SDK, the Go client keeps an empty non-nil policy
   * list, so under the strict profile its own receipt is refused.
   */
  lemma EmptyPoliciesFailStrict(p: Primitives, c: Client, r: Receipt, options: VerifyOptions, now: Int64)
    requires EffectiveProfile(c, options) == PROFILE_STRICT && r.policyIds == Some([])
    ensures StrictRequiresPolicy in VerifyErrors(p, c, r, options, now)
  {
    var es := VerifyErrors(p, c, r, options, now);
    assert es[|es| - 1] == StrictRequiresPolicy;
  }

  // ---------------------------------------------------------------- int64 overflow

  /**
   * The freshness test as the source computes it: `age` and `skew` are
   * `int64` differences and wrap around. When `now - ts` does not
   * overflow, neither difference wraps and the test is the exact one.
   */
  function FreshnessAsWritten(ts: Int64, now: Int64, maxAge: Int64, maxSkew: Int64): (r: TimestampStatus)
    ensures INT64_MIN < now - ts <= INT64_MAX ==> r == ClassifyAgeFirst(ts, now, maxAge, maxSkew)
  {
    var age, skew := Sub64(now, ts), Sub64(ts, now);
    if age > maxAge then Expired
    else if skew > maxSkew then Skew
    else OK
  }

  /**
   * For any clock reading `now >= 0`, a receipt stamped `now - 2^63` ms
   * (about 292 million years earlier) passes the wrapped test under every
   * profile, though it is far older than any threshold.
   */
  lemma AsWrittenAcceptsAncientReceipt(now: Int64, profile: string)
    requires now >= 0
    ensures var l := ProfileLimits(profile);
      && FreshnessAsWritten(now - 0x8000_0000_0000_0000, now, l.maxAgeMs, l.maxSkewMs) == OK
      && ClassifyAgeFirst(now - 0x8000_0000_0000_0000, now, l.maxAgeMs, l.maxSkewMs) == Expired
      && TimestampErrors(now - 0x8000_0000_0000_0000, now, l) == [TooOld(0x8000_0000_0000_0000, l.maxAgeMs)]
  {
    var ts: Int64 := now - 0x8000_0000_0000_0000;
    assert Sub64(now, ts) == INT64_MIN;
    assert Sub64(ts, now) == INT64_MIN;
  }
}
