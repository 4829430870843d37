/**
 * The Python SDK's `TECPClient`: profile thresholds fixed at construction,
 * `create_receipt`, which signs the eight core fields and then merges the
 * caller's extensions and the SDK's environment record, and
 * `verify_receipt`, which collects error messages without raising.
 *
 * The clock and the nonce bytes are parameters; `create_receipt` and
 * `verify_receipt` are coroutines in the SDK and plain methods here.
 */
module SdkClient {
  import opened Wrappers
  import opened Values
  import opened Primitives
  import opened Freshness
  import opened SdkTypes
  import CoreTypes
  import Decimal

  const DEFAULT_POLICY := "no_retention"
  const CODE_REF_PREFIX := "python-sdk:"
  const LOG_WARNING := "Transparency log verification not yet implemented"

  /** The `environment` record every SDK receipt carries. */
  const SDK_ENVIRONMENT := Dict([Entry("provider", Str("tecp-sdk-python")), Entry("version", Str("0.1.0"))])

  // ---------------------------------------------------------------- client

  datatype TECPClient = TECPClient(
    privateKey: Option<Bytes>, profile: string, logUrl: Option<string>, verifierUrl: Option<string>,
    maxReceiptAgeMs: int, maxClockSkewMs: int)

  /** `TECPClient(...)`: the 24 h / 5 min defaults, replaced for the lite and strict profiles. */
  function NewTECPClient(privateKey: Option<Bytes>, profile: string, logUrl: Option<string>, verifierUrl: Option<string>)
    : (c: TECPClient)
    ensures c.privateKey == privateKey && c.profile == profile && c.logUrl == logUrl && c.verifierUrl == verifierUrl
    ensures Limits(c.maxReceiptAgeMs, c.maxClockSkewMs) == ProfileLimits(profile)
  {
    var (maxAge, maxSkew) :=
      if profile == PROFILE_LITE then (7 * 24 * 60 * 60 * 1000, 15 * 60 * 1000)
      else if profile == PROFILE_STRICT then (60 * 60 * 1000, 60 * 1000)
      else (CoreTypes.MAX_RECEIPT_AGE_MS, CoreTypes.MAX_CLOCK_SKEW_MS);
    TECPClient(privateKey, profile, logUrl, verifierUrl, maxAge, maxSkew)
  }

  /** `input_data` / `output_data`: text is encoded as UTF-8, bytes are taken as they are. */
  datatype Data = Text(text: string) | Raw(bytes: Bytes)

  function DataBytes(p: Primitives, d: Data): Bytes {
    match d
    case Text(s) => p.utf8(s)
    case Raw(b) => b
  }

  /** The `signing_data` dictionary: the eight signed fields of a receipt, in the SDK's order. */
  function SigningData(r: Receipt): (es: seq<Entry>)
    ensures |es| == 8
    ensures forall i :: 0 <= i < |es| ==> SignedField(es[i].key)
  {
    [ Entry("version", r.version), Entry("code_ref", r.codeRef), Entry("ts", r.ts),
      Entry("nonce", r.nonce), Entry("input_hash", r.inputHash), Entry("output_hash", r.outputHash),
      Entry("policy_ids", r.policyIds), Entry("pubkey", r.pubkey) ]
  }

  predicate SignedField(k: string) {
    k in {"version", "code_ref", "ts", "nonce", "input_hash", "output_hash", "policy_ids", "pubkey"}
  }

  // ---------------------------------------------------------------- creation

  /** The `code_ref or default` / `policies or default` fallbacks: `None` and empty values fall back. */
  function CodeRefOrDefault(codeRef: Option<string>, ts: int): (s: string)
    ensures codeRef.Some? && codeRef.value != "" ==> s == codeRef.value
    ensures codeRef.None? || codeRef.value == "" ==> s == CODE_REF_PREFIX + Decimal.IntString(ts)
  {
    if codeRef.Some? && codeRef.value != "" then codeRef.value else CODE_REF_PREFIX + Decimal.IntString(ts)
  }

  function PoliciesOrDefault(policies: Option<seq<string>>): (ps: seq<string>)
    ensures ps != []
    ensures policies.Some? && policies.value != [] ==> ps == policies.value
    ensures policies.None? || policies.value == [] ==> ps == [DEFAULT_POLICY]
  {
    if policies.Some? && policies.value != [] then policies.value else [DEFAULT_POLICY]
  }

  /**
   * The signed receipt `create_receipt` builds before any extension is merged:
   * its signature covers its own eight signed fields.
   */
  function Generated(
    p: Primitives, sk: Bytes, input: Data, output: Data, policies: Option<seq<string>>, codeRef: Option<string>,
    clockMs: int, entropy: Bytes): (g: Receipt)
    ensures g.version == Str(CoreTypes.TECP_VERSION) && g.ts == Int(clockMs)
    ensures g.codeRef == Str(CodeRefOrDefault(codeRef, clockMs))
    ensures g.policyIds == StrList(PoliciesOrDefault(policies))
    ensures g.nonce == Str(p.b64encode(entropy)) && g.pubkey == Str(p.b64encode(p.publicKeyOf(sk)))
    ensures g.inputHash == Str(p.b64encode(p.sha256(DataBytes(p, input))))
    ensures g.outputHash == Str(p.b64encode(p.sha256(DataBytes(p, output))))
    ensures g.sig == Str(p.b64encode(p.sign(sk, CanonicalBytes(p, Dict(SigningData(g))))))
  {
    var unsigned := Receipt(
      Str(CoreTypes.TECP_VERSION), Str(CodeRefOrDefault(codeRef, clockMs)), Int(clockMs), Str(p.b64encode(entropy)),
      Str(p.b64encode(p.sha256(DataBytes(p, input)))), Str(p.b64encode(p.sha256(DataBytes(p, output)))),
      StrList(PoliciesOrDefault(policies)), Null, Str(p.b64encode(p.publicKeyOf(sk))),
      Null, Null, Null, Null, Null);
    unsigned.(sig := Str(p.b64encode(p.sign(sk, CanonicalBytes(p, Dict(SigningData(unsigned)))))))
  }

  /**
   * A generated receipt after `receipt_data.update(extensions)` and the
   * `environment` overwrite: an extension replaces any field it names,
   * signed ones included, and `environment` is always the SDK's record.
   */
  function Merged(g: Receipt, ext: seq<Entry>): (r: Receipt)
    ensures r.environment == SDK_ENVIRONMENT
  {
    Receipt(
      Get(ext, "version").GetOr(g.version), Get(ext, "code_ref").GetOr(g.codeRef), Get(ext, "ts").GetOr(g.ts),
      Get(ext, "nonce").GetOr(g.nonce), Get(ext, "input_hash").GetOr(g.inputHash),
      Get(ext, "output_hash").GetOr(g.outputHash), Get(ext, "policy_ids").GetOr(g.policyIds),
      Get(ext, "sig").GetOr(g.sig), Get(ext, "pubkey").GetOr(g.pubkey),
      Get(ext, "log_inclusion").GetOr(Null), Get(ext, "key_erasure").GetOr(Null), SDK_ENVIRONMENT,
      Get(ext, "anchors").GetOr(Null), Get(ext, "ext").GetOr(Null))
  }

  /** The errors `create_receipt` raises. */
  datatype CreateError =
    | PrivateKeyRequired
      /** `Receipt(**receipt_data)` refused the merged dictionary. */
    | ConstructorError(cause: KwargsError)

  /** `receipt_data` once `sig` is set: the signed fields in the SDK's order, then `sig`. */
  function SignedData(r: Receipt): (es: seq<Entry>)
    ensures |es| == 9
  {
    [ Entry("version", r.version), Entry("code_ref", r.codeRef), Entry("ts", r.ts),
      Entry("nonce", r.nonce), Entry("input_hash", r.inputHash), Entry("output_hash", r.outputHash),
      Entry("policy_ids", r.policyIds), Entry("pubkey", r.pubkey), Entry("sig", r.sig) ]
  }

  /** `receipt_data` just before `Receipt(**receipt_data)`. */
  function MergedDict(g: Receipt, ext: seq<Entry>): seq<Entry> {
    Put(Update(SignedData(g), ext), "environment", SDK_ENVIRONMENT)
  }

  /**
   * The signed dictionary has no key twice and no `sig`; with `sig` added,
   * it still has no key twice and only the eight signed names and `sig`.
   */
  lemma SignedDataWellFormed(r: Receipt)
    ensures DistinctKeys(SigningData(r)) && Get(SigningData(r), "sig").None?
    ensures DistinctKeys(SignedData(r))
    ensures Keys(SignedData(r))
            <= {"version", "code_ref", "ts", "nonce", "input_hash", "output_hash", "policy_ids", "pubkey", "sig"}
  {
    GetAbsent(SigningData(r), "sig");
  }

  /** The signed dictionary holds each of the eight signed fields under its key. */
  lemma SigningDataGet(r: Receipt)
    ensures var d := SigningData(r);
      && Get(d, "version") == Some(r.version) && Get(d, "code_ref") == Some(r.codeRef)
      && Get(d, "ts") == Some(r.ts) && Get(d, "nonce") == Some(r.nonce)
      && Get(d, "input_hash") == Some(r.inputHash) && Get(d, "output_hash") == Some(r.outputHash)
      && Get(d, "policy_ids") == Some(r.policyIds) && Get(d, "pubkey") == Some(r.pubkey)
  {
    var d := SigningData(r);
    SignedDataWellFormed(r);
    GetDistinct(d, 0); GetDistinct(d, 1); GetDistinct(d, 2); GetDistinct(d, 3);
    GetDistinct(d, 4); GetDistinct(d, 5); GetDistinct(d, 6); GetDistinct(d, 7);
  }

  /** The signed part holds the nine core fields. */
  lemma SignedDataGet(g: Receipt)
    ensures var base := SignedData(g);
      && Get(base, "version") == Some(g.version) && Get(base, "code_ref") == Some(g.codeRef)
      && Get(base, "ts") == Some(g.ts) && Get(base, "nonce") == Some(g.nonce)
      && Get(base, "input_hash") == Some(g.inputHash) && Get(base, "output_hash") == Some(g.outputHash)
      && Get(base, "policy_ids") == Some(g.policyIds) && Get(base, "pubkey") == Some(g.pubkey)
      && Get(base, "sig") == Some(g.sig)
  {
    var base := SignedData(g);
    SignedDataWellFormed(g);
    GetDistinct(base, 0); GetDistinct(base, 1); GetDistinct(base, 2); GetDistinct(base, 3); GetDistinct(base, 4);
    GetDistinct(base, 5); GetDistinct(base, 6); GetDistinct(base, 7); GetDistinct(base, 8);
  }

  /** The signed part holds none of the optional fields. */
  lemma SignedDataOptionalAbsent(g: Receipt, k: string)
    requires k in {"log_inclusion", "key_erasure", "anchors", "ext"}
    ensures Get(SignedData(g), k).None?
  {
    GetAbsent(SignedData(g), k);
  }

  /** A field of the merged dictionary other than `environment`: the extension's value, else the signed part's. */
  lemma MergedDictGet(g: Receipt, ext: seq<Entry>, k: string)
    requires DistinctKeys(ext) && k != "environment"
    ensures Get(MergedDict(g, ext), k) == if Get(ext, k).Some? then Get(ext, k) else Get(SignedData(g), k)
  {
    GetUpdate(SignedData(g), ext, k);
  }

  /** The merged dictionary's keys are field names exactly when the extension's keys are. */
  lemma MergedDictKeys(g: Receipt, ext: seq<Entry>)
    ensures Keys(MergedDict(g, ext)) - FIELD_NAMES == Keys(ext) - FIELD_NAMES
  {
    var base := SignedData(g);
    KeysPut(Update(base, ext), "environment", SDK_ENVIRONMENT);
    KeysUpdate(base, ext);
    SignedDataWellFormed(g);
  }

  /** Each field of `Merged` is what the merged dictionary holds under its name. */
  lemma MergedDictGets(g: Receipt, ext: seq<Entry>)
    requires DistinctKeys(ext)
    ensures var kw, m := MergedDict(g, ext), Merged(g, ext);
      && Get(kw, "version") == Some(m.version) && Get(kw, "code_ref") == Some(m.codeRef)
      && Get(kw, "ts") == Some(m.ts) && Get(kw, "nonce") == Some(m.nonce)
      && Get(kw, "input_hash") == Some(m.inputHash) && Get(kw, "output_hash") == Some(m.outputHash)
      && Get(kw, "policy_ids") == Some(m.policyIds) && Get(kw, "sig") == Some(m.sig)
      && Get(kw, "pubkey") == Some(m.pubkey)
      && Get(kw, "log_inclusion").GetOr(Null) == m.logInclusion && Get(kw, "key_erasure").GetOr(Null) == m.keyErasure
      && Get(kw, "environment").GetOr(Null) == m.environment
      && Get(kw, "anchors").GetOr(Null) == m.anchors && Get(kw, "ext").GetOr(Null) == m.ext
  {
    SignedDataGet(g);
    SignedDataOptionalAbsent(g, "log_inclusion"); SignedDataOptionalAbsent(g, "key_erasure");
    SignedDataOptionalAbsent(g, "anchors"); SignedDataOptionalAbsent(g, "ext");
    MergedDictGet(g, ext, "version"); MergedDictGet(g, ext, "code_ref"); MergedDictGet(g, ext, "ts");
    MergedDictGet(g, ext, "nonce"); MergedDictGet(g, ext, "input_hash"); MergedDictGet(g, ext, "output_hash");
    MergedDictGet(g, ext, "policy_ids"); MergedDictGet(g, ext, "sig"); MergedDictGet(g, ext, "pubkey");
    MergedDictGet(g, ext, "log_inclusion"); MergedDictGet(g, ext, "key_erasure");
    MergedDictGet(g, ext, "anchors"); MergedDictGet(g, ext, "ext");
  }

  /** With field-name keys only, `Receipt(**receipt_data)` gives `Merged`. */
  lemma MergedDictFields(g: Receipt, ext: seq<Entry>)
    requires DistinctKeys(ext) && Keys(ext) <= FIELD_NAMES
    ensures FromKwargs(MergedDict(g, ext)) == Ok(Merged(g, ext))
  {
    var kw, m := MergedDict(g, ext), Merged(g, ext);
    MergedDictKeys(g, ext);
    assert Keys(kw) <= FIELD_NAMES by {
      assert Keys(kw) - FIELD_NAMES == {};
    }
    MergedDictGets(g, ext);
    assert HasCoreKeys(kw);
    var r := FromKwargs(kw);
    assert r.Ok?;
    var x := r.value;
    assert x.version == m.version && x.codeRef == m.codeRef && x.ts == m.ts && x.nonce == m.nonce;
    assert x.inputHash == m.inputHash && x.outputHash == m.outputHash && x.policyIds == m.policyIds;
    assert x.sig == m.sig && x.pubkey == m.pubkey;
    assert x.logInclusion == m.logInclusion && x.keyErasure == m.keyErasure && x.environment == m.environment;
    assert x.anchors == m.anchors && x.ext == m.ext;
  }

  /**
   * `Receipt(**receipt_data)` on the merged dictionary: it succeeds exactly
   * when every extension key names a field, and then gives `Merged`; otherwise
   * it names an extension key that is no field.
   */
  lemma MergedKwargs(g: Receipt, ext: seq<Entry>)
    requires DistinctKeys(ext)
    ensures Keys(ext) <= FIELD_NAMES ==> FromKwargs(MergedDict(g, ext)) == Ok(Merged(g, ext))
    ensures !(Keys(ext) <= FIELD_NAMES) ==>
              var r := FromKwargs(MergedDict(g, ext));
              r.Err? && r.error.UnexpectedKeyword? && r.error.name in Keys(ext) && r.error.name !in FIELD_NAMES
  {
    MergedDictKeys(g, ext);
    if Keys(ext) <= FIELD_NAMES {
      MergedDictFields(g, ext);
    } else {
      var k :| k in Keys(ext) && k !in FIELD_NAMES;
      var kw := MergedDict(g, ext);
      assert k in Keys(kw) - FIELD_NAMES;
      var unknown := FirstUnknown(kw);
      assert FromKwargs(kw) == Err(UnexpectedKeyword(unknown.value));
      assert unknown.value in Keys(kw) - FIELD_NAMES;
    }
  }

  /** `receipt_data` before the public key is added. */
  function UnsignedData(r: Receipt): (es: seq<Entry>)
    ensures |es| == 7
  {
    [ Entry("version", r.version), Entry("code_ref", r.codeRef), Entry("ts", r.ts),
      Entry("nonce", r.nonce), Entry("input_hash", r.inputHash), Entry("output_hash", r.outputHash),
      Entry("policy_ids", r.policyIds) ]
  }

  /** Adding the public key completes the signing data. */
  lemma AddPubkey(r: Receipt)
    ensures Put(UnsignedData(r), "pubkey", r.pubkey) == SigningData(r)
  {
    GetAbsent(UnsignedData(r), "pubkey");
    PutNew(UnsignedData(r), "pubkey", r.pubkey);
  }

  /** Adding the signature appends `sig` after the signed fields. */
  lemma AddSig(r: Receipt)
    ensures Put(SigningData(r), "sig", r.sig) == SignedData(r)
  {
    SignedDataWellFormed(r);
    PutNew(SigningData(r), "sig", r.sig);
  }

  /** `d.update(other)`, one entry at a time. */
  method UpdateInPlace(d: seq<Entry>, other: seq<Entry>) returns (r: seq<Entry>)
    ensures r == Update(d, other)
  {
    r := d;
    var i := 0;
    while i < |other|
      invariant 0 <= i <= |other|
      invariant r == Update(d, other[..i])
    {
      assert other[..i + 1][..i] == other[..i];
      r := Put(r, other[i].key, other[i].val);
      i := i + 1;
    }
    assert other[..|other|] == other;
  }

  /** What `Receipt(**receipt_data)` makes of the merged dictionary. */
  function CreateOutcome(g: Receipt, ext: seq<Entry>): Result<Receipt, CreateError> {
    match FromKwargs(MergedDict(g, ext))
    case Err(e) => Err(ConstructorError(e))
    case Ok(receipt) => Ok(receipt)
  }

  /**
   * `create_receipt` succeeds exactly when every extension key names a field
   * of the dataclass, and then returns the generated receipt with the
   * extensions merged over it; otherwise it names an unknown extension key.
   */
  lemma CreateOutcomeMeaning(g: Receipt, ext: seq<Entry>)
    requires DistinctKeys(ext)
    ensures CreateOutcome(g, ext).Ok? <==> Keys(ext) <= FIELD_NAMES
    ensures CreateOutcome(g, ext).Ok? ==> CreateOutcome(g, ext).value == Merged(g, ext)
    ensures CreateOutcome(g, ext).Err? ==>
              var e := CreateOutcome(g, ext).error;
              e.ConstructorError? && e.cause.UnexpectedKeyword? && e.cause.name in Keys(ext) && e.cause.name !in FIELD_NAMES
  {
    MergedKwargs(g, ext);
  }

  /**
   * The first half of `create_receipt`: hashes the data, fills in the
   * defaults, adds the public key, signs the dictionary built so far and
   * adds `sig`.
   */
  method SignedReceiptData(
    p: Primitives, sk: Bytes, inputData: Data, outputData: Data, policies: Option<seq<string>>,
    codeRef: Option<string>, clockMs: int, entropy: Bytes)
    returns (receiptData: seq<Entry>)
    ensures receiptData == SignedData(Generated(p, sk, inputData, outputData, policies, codeRef, clockMs, entropy))
  {
    var input, output := DataBytes(p, inputData), DataBytes(p, outputData);
    var timestamp := clockMs;
    var nonce := entropy;
    var inputHash, outputHash := p.sha256(input), p.sha256(output);
    receiptData := [
      Entry("version", Str(CoreTypes.TECP_VERSION)),
      Entry("code_ref", Str(CodeRefOrDefault(codeRef, timestamp))),
      Entry("ts", Int(timestamp)),
      Entry("nonce", Str(p.b64encode(nonce))),
      Entry("input_hash", Str(p.b64encode(inputHash))),
      Entry("output_hash", Str(p.b64encode(outputHash))),
      Entry("policy_ids", StrList(PoliciesOrDefault(policies)))];
    ghost var g := Generated(p, sk, inputData, outputData, policies, codeRef, clockMs, entropy);
    assert receiptData == UnsignedData(g);
    AddPubkey(g);
    receiptData := Put(receiptData, "pubkey", Str(p.b64encode(p.publicKeyOf(sk))));
    assert receiptData == SigningData(g);
    var signature := p.sign(sk, CanonicalBytes(p, Dict(receiptData)));
    AddSig(g);
    receiptData := Put(receiptData, "sig", Str(p.b64encode(signature)));
  }

  /**
   * `create_receipt`: refuses to run without a private key; otherwise signs
   * the eight core fields, sets `sig`, merges the extensions, overwrites
   * `environment` and builds the dataclass from the result.
   */
  method CreateReceipt(
    p: Primitives, c: TECPClient, inputData: Data, outputData: Data, policies: Option<seq<string>>,
    codeRef: Option<string>, extensions: Option<seq<Entry>>, clockMs: int, entropy: Bytes)
    returns (r: Result<Receipt, CreateError>)
    requires extensions.Some? ==> DistinctKeys(extensions.value)
    ensures c.privateKey.None? ==> r == Err(PrivateKeyRequired)
    ensures c.privateKey.Some? ==> r == CreateOutcome(
              Generated(p, c.privateKey.value, inputData, outputData, policies, codeRef, clockMs, entropy),
              extensions.GetOr([]))
  {
    if c.privateKey.None? {
      return Err(PrivateKeyRequired);
    }
    var sk := c.privateKey.value;
    var receiptData := SignedReceiptData(p, sk, inputData, outputData, policies, codeRef, clockMs, entropy);
    ghost var g := Generated(p, sk, inputData, outputData, policies, codeRef, clockMs, entropy);
    var ext := extensions.GetOr([]);
    if ext != [] {
      receiptData := UpdateInPlace(receiptData, ext);
    }
    assert receiptData == Update(SignedData(g), ext);
    receiptData := Put(receiptData, "environment", SDK_ENVIRONMENT);
    assert receiptData == MergedDict(g, ext);
    match FromKwargs(receiptData)
    case Err(e) => r := Err(ConstructorError(e));
    case Ok(receipt) => r := Ok(receipt);
  }

  // ---------------------------------------------------------------- verification

  /** `profile or self.profile`. */
  function EffectiveProfile(c: TECPClient, profile: Option<string>): string {
    if profile.Some? && profile.value != "" then profile.value else c.profile
  }

  function VersionErrors(r: Receipt): (es: seq<VerifyError>)
    ensures es == [] <==> r.version == Str(CoreTypes.TECP_VERSION)
  {
    if r.version != Str(CoreTypes.TECP_VERSION) then [InvalidVersion(r.version)] else []
  }

  /** The age test, then the skew test, against the thresholds fixed when the client was built. */
  function TimestampErrors(c: TECPClient, ts: int, now: int): (es: seq<VerifyError>)
    ensures |es| <= 1
    ensures es == [] <==> InWindow(ts, now, c.maxReceiptAgeMs, c.maxClockSkewMs)
    ensures es != [] ==> es[0] == TooOld(now - ts, c.maxReceiptAgeMs) || es[0] == InFuture(ts - now, c.maxClockSkewMs)
    ensures now - ts > c.maxReceiptAgeMs ==> es == [TooOld(now - ts, c.maxReceiptAgeMs)]
    ensures now - ts <= c.maxReceiptAgeMs && ts - now > c.maxClockSkewMs ==> es == [InFuture(ts - now, c.maxClockSkewMs)]
  {
    ClassifiersAcceptWindow(ts, now, c.maxReceiptAgeMs, c.maxClockSkewMs);
    match ClassifyAgeFirst(ts, now, c.maxReceiptAgeMs, c.maxClockSkewMs)
    case Expired => [TooOld(now - ts, c.maxReceiptAgeMs)]
    case Skew => [InFuture(ts - now, c.maxClockSkewMs)]
    case OK => []
  }

  /**
   * The inner `try` of `verify_receipt`: the public key must decode to 32
   * bytes, the signature must decode, and Ed25519 must accept it over the
   * canonical encoding of the signing data. Every failure is the same
   * "Signature verification failed" message.
   */
  function SignatureValid(p: Primitives, r: Receipt): (ok: bool)
    ensures ok <==>
      var pk, signature := PyB64Decode(p, r.pubkey), PyB64Decode(p, r.sig);
      && pk.Some? && |pk.value| == PUBLIC_KEY_SIZE && signature.Some?
      && p.verify(pk.value, CanonicalBytes(p, Dict(SigningData(r))), signature.value)
  {
    match PyB64Decode(p, r.pubkey)
    case None => false
    case Some(pk) =>
      |pk| == PUBLIC_KEY_SIZE &&
      match PyB64Decode(p, r.sig)
      case None => false
      case Some(sig) => p.verify(pk, CanonicalBytes(p, Dict(SigningData(r))), sig)
  }

  function SignatureErrors(p: Primitives, r: Receipt): (es: seq<VerifyError>)
    ensures es == [] <==> SignatureValid(p, r)
  {
    if SignatureValid(p, r) then [] else [SignatureFailed]
  }

  function PolicyErrors(profile: string, r: Receipt): (es: seq<VerifyError>)
    ensures es == [] <==> !RequiresPolicies(profile) || Truthy(r.policyIds)
  {
    if profile == PROFILE_STRICT && !Truthy(r.policyIds) then [StrictRequiresPolicy] else []
  }

  /**
   * The messages `verify_receipt` collects. A timestamp that is not a number
   * makes `now - receipt.ts` raise, which skips every later check and leaves
   * one "Verification error" message after the version message.
   */
  function VerifyErrors(p: Primitives, c: TECPClient, r: Receipt, profile: Option<string>, now: int)
    : seq<VerifyError>
  {
    match AsInt(r.ts)
    case None => VersionErrors(r) + [VerificationError(TypeName(r.ts))]
    case Some(ts) =>
      VersionErrors(r) + TimestampErrors(c, ts, now) + SignatureErrors(p, r)
      + PolicyErrors(EffectiveProfile(c, profile), r)
  }

  /**
   * `verify_receipt`: runs every check, collecting one message per failing
   * check, never raising; `valid` exactly when nothing was collected.
   */
  method VerifyReceipt(p: Primitives, c: TECPClient, receipt: Receipt, requireLog: bool, profile: Option<string>, now: int)
    returns (result: VerificationResult)
    ensures result.valid <==> result.errors == []
    ensures result.errors == VerifyErrors(p, c, receipt, profile, now)
    ensures result.warnings == if requireLog && AsInt(receipt.ts).Some? then [LOG_WARNING] else []
    ensures result.profile == Some(EffectiveProfile(c, profile)) && result.errorCodes.None?
  {
    var errors: seq<VerifyError> := [];
    var warnings: seq<string> := [];
    if receipt.version != Str(CoreTypes.TECP_VERSION) {
      errors := errors + [InvalidVersion(receipt.version)];
    }
    assert errors == VersionErrors(receipt);
    match AsInt(receipt.ts) {
      case None =>
        errors := errors + [VerificationError(TypeName(receipt.ts))];
      case Some(ts) =>
        errors := CheckFreshness(c, ts, now, errors);
        if !SignatureValid(p, receipt) {
          errors := errors + [SignatureFailed];
        }
        errors := CheckPolicies(c, receipt, profile, errors);
        if requireLog {
          warnings := warnings + [LOG_WARNING];
        }
    }
    result := VerificationResult(
      |errors| == 0, errors, warnings, Some(if profile.Some? && profile.value != "" then profile.value else c.profile),
      None);
  }

  /** The age and skew comparisons of `verify_receipt`, age first. */
  method CheckFreshness(c: TECPClient, ts: int, now: int, errors: seq<VerifyError>) returns (errors': seq<VerifyError>)
    ensures errors' == errors + TimestampErrors(c, ts, now)
  {
    errors' := errors;
    var age := now - ts;
    var skew := ts - now;
    var maxAge := c.maxReceiptAgeMs;
    var maxSkew := c.maxClockSkewMs;
    if age > maxAge {
      errors' := errors' + [TooOld(age, maxAge)];
    } else if skew > maxSkew {
      errors' := errors' + [InFuture(skew, maxSkew)];
    }
  }

  /** The strict-profile policy rule of `verify_receipt`, under the profile argument or else the client's. */
  method CheckPolicies(c: TECPClient, receipt: Receipt, profile: Option<string>, errors: seq<VerifyError>)
    returns (errors': seq<VerifyError>)
    ensures errors' == errors + PolicyErrors(EffectiveProfile(c, profile), receipt)
  {
    errors' := errors;
    var currentProfile := if profile.Some? && profile.value != "" then profile.value else c.profile;
    if currentProfile == PROFILE_STRICT && !Truthy(receipt.policyIds) {
      errors' := errors' + [StrictRequiresPolicy];
    }
  }

  // ---------------------------------------------------------------- properties

  /** A receipt is valid exactly when its version, freshness, signature and policy checks all pass. */
  lemma ValidIffChecksPass(p: Primitives, c: TECPClient, r: Receipt, profile: Option<string>, now: int)
    ensures VerifyErrors(p, c, r, profile, now) == []
            <==> && r.version == Str(CoreTypes.TECP_VERSION)
                 && AsInt(r.ts).Some?
                 && InWindow(AsInt(r.ts).value, now, c.maxReceiptAgeMs, c.maxClockSkewMs)
                 && SignatureValid(p, r)
                 && (!RequiresPolicies(EffectiveProfile(c, profile)) || Truthy(r.policyIds))
  {
  }

  /**
   * The `profile` argument selects the strict policy rule but not the
   * thresholds: a client built for v0.1 accepts a two-hour-old receipt even
   * when asked to verify under the strict profile, whose limit is one hour.
   */
  lemma ProfileArgumentKeepsThresholds(p: Primitives, r: Receipt, now: int)
    requires r.ts == Int(now - 2 * HOUR_MS)
    ensures var c := NewTECPClient(None, PROFILE_V01, None, None);
      && !InWindow(now - 2 * HOUR_MS, now, ProfileLimits(PROFILE_STRICT).maxAgeMs, ProfileLimits(PROFILE_STRICT).maxSkewMs)
      && TimestampErrors(c, now - 2 * HOUR_MS, now) == []
      && var es := VerifyErrors(p, c, r, Some(PROFILE_STRICT), now);
         forall i :: 0 <= i < |es| ==> !es[i].TooOld? && !es[i].InFuture?
  {
    var c := NewTECPClient(None, PROFILE_V01, None, None);
    assert TimestampErrors(c, now - 2 * HOUR_MS, now) == [];
  }

  /** Extensions that name no signed field and not `sig` leave the signed data and the signature as generated. */
  lemma MergeKeepsSignedFields(g: Receipt, ext: seq<Entry>)
    requires forall k :: k in Keys(ext) ==> !SignedField(k) && k != "sig"
    ensures SigningData(Merged(g, ext)) == SigningData(g) && Merged(g, ext).sig == g.sig
  {
    KeysGet(ext, "version"); KeysGet(ext, "code_ref"); KeysGet(ext, "ts"); KeysGet(ext, "nonce");
    KeysGet(ext, "input_hash"); KeysGet(ext, "output_hash"); KeysGet(ext, "policy_ids"); KeysGet(ext, "pubkey");
    KeysGet(ext, "sig");
  }

  /** A freshly generated receipt's signature checks out under the key it publishes. */
  lemma GeneratedSignatureValid(
    p: Primitives, sk: Bytes, input: Data, output: Data, policies: Option<seq<string>>, codeRef: Option<string>,
    clockMs: int, entropy: Bytes)
    requires Sound(p)
    ensures SignatureValid(p, Generated(p, sk, input, output, policies, codeRef, clockMs, entropy))
  {
    var g := Generated(p, sk, input, output, policies, codeRef, clockMs, entropy);
    PyB64RoundTrip(p, p.publicKeyOf(sk));
    PyB64RoundTrip(p, p.sign(sk, CanonicalBytes(p, Dict(SigningData(g)))));
  }

  /**
   * Round trip: a receipt `create_receipt` returns passes `verify_receipt`
   * on the same client while it is fresh, provided its extensions name no
   * signed field and not `sig`.
   */
  lemma CreatedReceiptVerifies(
    p: Primitives, c: TECPClient, input: Data, output: Data, policies: Option<seq<string>>, codeRef: Option<string>,
    ext: seq<Entry>, clockMs: int, entropy: Bytes, profile: Option<string>, now: int)
    requires Sound(p) && c.privateKey.Some?
    requires forall k :: k in Keys(ext) ==> !SignedField(k) && k != "sig"
    requires InWindow(clockMs, now, c.maxReceiptAgeMs, c.maxClockSkewMs)
    ensures var g := Generated(p, c.privateKey.value, input, output, policies, codeRef, clockMs, entropy);
      VerifyErrors(p, c, Merged(g, ext), profile, now) == []
  {
    var g := Generated(p, c.privateKey.value, input, output, policies, codeRef, clockMs, entropy);
    MergeKeepsSignedFields(g, ext);
    GeneratedSignatureValid(p, c.privateKey.value, input, output, policies, codeRef, clockMs, entropy);
    ValidIffChecksPass(p, c, Merged(g, ext), profile, now);
  }
}
