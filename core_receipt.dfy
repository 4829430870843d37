/**
 * The Python core's `ReceiptSigner` and `ReceiptVerifier`: receipt assembly
 * and signing, the extraction of the eight signed fields, and the verifier
 * that runs the schema, timestamp and signature checks one after the other
 * and collects their errors.
 */
module CoreReceipt {
  import opened Wrappers
  import opened Values
  import opened Primitives
  import opened CoreTypes
  import opened Freshness

  // ---------------------------------------------------------------- signer

  /** Size in bytes of an Ed25519 private key seed. */
  const PRIVATE_KEY_SIZE := 32

  datatype ReceiptSigner = ReceiptSigner(privateKey: Bytes, publicKey: Bytes, publicKeyB64: string)

  /**
   * `ReceiptSigner(private_key, public_key)`: both keys must be raw 32-byte
   * Ed25519 keys; the constructor does not check that they belong together.
   */
  function NewReceiptSigner(p: Primitives, privateKey: Bytes, publicKey: Bytes): (r: Result<ReceiptSigner, string>)
    ensures r.Ok? <==> |privateKey| == PRIVATE_KEY_SIZE && |publicKey| == PUBLIC_KEY_SIZE
    ensures r.Ok? ==> r.value.privateKey == privateKey && r.value.publicKey == publicKey
    ensures r.Err? ==> r.error == "Invalid key format"
  {
    if |privateKey| != PRIVATE_KEY_SIZE || |publicKey| != PUBLIC_KEY_SIZE then Err("Invalid key format")
    else Ok(ReceiptSigner(privateKey, publicKey, p.b64encode(publicKey)))
  }

  /** The public key a signer publishes in its receipts decodes back to the key it was given. */
  lemma PublishedKeyDecodes(p: Primitives, privateKey: Bytes, publicKey: Bytes)
    requires Sound(p) && NewReceiptSigner(p, privateKey, publicKey).Ok?
    ensures PyB64Decode(p, Str(NewReceiptSigner(p, privateKey, publicKey).value.publicKeyB64)) == Some(publicKey)
  {
  }

  /** The names of the signed fields, in the order the signer lists them. */
  const SIGNED_FIELDS := ["version", "code_ref", "ts", "nonce", "input_hash", "output_hash", "policy_ids", "pubkey"]

  /** The `core_receipt` dictionary of a receipt: its eight signed fields, `sig` excluded. */
  function SignedEntries(r: Receipt): (es: seq<Entry>)
    ensures |es| == |SIGNED_FIELDS| && forall i :: 0 <= i < |es| ==> es[i].key == SIGNED_FIELDS[i]
  {
    [ Entry("version", Str(r.version)),
      Entry("code_ref", Str(r.codeRef)),
      Entry("ts", Int(r.ts)),
      Entry("nonce", Str(r.nonce)),
      Entry("input_hash", Str(r.inputHash)),
      Entry("output_hash", Str(r.outputHash)),
      Entry("policy_ids", StrList(r.policyIds)),
      Entry("pubkey", Str(r.pubkey)) ]
  }

  function Sha256B64(p: Primitives, data: Bytes): string {
    p.b64encode(p.sha256(data))
  }

  /**
   * `create_receipt`. The clock reading (milliseconds) and the 16 bytes of
   * entropy are parameters; they are used only when no timestamp or nonce is
   * supplied. The signature is made over the core receipt, and the
   * extensions are attached afterwards.
   */
  function CreateReceipt(
    p: Primitives, s: ReceiptSigner,
    codeRef: string, inputData: Bytes, outputData: Bytes, policyIds: seq<string>,
    extensions: Option<ReceiptExtensions>, timestamp: Option<int>, nonce: Option<string>,
    clockMs: int, entropy: Bytes): (r: FullReceipt)
    ensures r.receipt.version == TECP_VERSION
    ensures r.receipt.ts == (if timestamp.Some? then timestamp.value else clockMs)
    ensures r.receipt.nonce == (if nonce.Some? then nonce.value else p.b64encode(entropy))
    ensures r.receipt.codeRef == codeRef && r.receipt.policyIds == policyIds
    ensures r.receipt.inputHash == Sha256B64(p, inputData) && r.receipt.outputHash == Sha256B64(p, outputData)
    ensures r.receipt.pubkey == s.publicKeyB64
    ensures r.receipt.sig == p.b64encode(p.sign(s.privateKey, CanonicalBytes(p, Dict(SignedEntries(r.receipt)))))
    ensures r.extensions == (if extensions.Some? then extensions.value else NO_EXTENSIONS)
  {
    var ts := if timestamp.None? then clockMs else timestamp.value;
    var nonce' := if nonce.None? then p.b64encode(entropy) else nonce.value;
    var unsigned := Receipt(TECP_VERSION, codeRef, ts, nonce', Sha256B64(p, inputData), Sha256B64(p, outputData),
                            policyIds, "", s.publicKeyB64);
    var coreReceipt := SignedEntries(unsigned);
    var sig := p.b64encode(p.sign(s.privateKey, CanonicalBytes(p, Dict(coreReceipt))));
    var attached := match extensions
      case None => NO_EXTENSIONS
      case Some(x) => ReceiptExtensions(
        if x.keyErasure.Some? then x.keyErasure else None,
        if x.environment.Some? then x.environment else None,
        if x.logInclusion.Some? then x.logInclusion else None);
    FullReceipt(unsigned.(sig := sig), attached)
  }

  /** Extensions are attached after signing: changing them changes nothing in the signed receipt. */
  lemma ExtensionsNotSigned(
    p: Primitives, s: ReceiptSigner,
    codeRef: string, inputData: Bytes, outputData: Bytes, policyIds: seq<string>,
    x1: Option<ReceiptExtensions>, x2: Option<ReceiptExtensions>,
    timestamp: Option<int>, nonce: Option<string>, clockMs: int, entropy: Bytes)
    ensures CreateReceipt(p, s, codeRef, inputData, outputData, policyIds, x1, timestamp, nonce, clockMs, entropy).receipt
         == CreateReceipt(p, s, codeRef, inputData, outputData, policyIds, x2, timestamp, nonce, clockMs, entropy).receipt
  {
  }

  // ---------------------------------------------------------------- verifier

  /**
   * The `core_fields` dictionary the verifier rebuilds: the eight signed
   * fields read out of the receipt in the signer's order; `None` when one of
   * them is missing (a `KeyError`).
   */
  function SignedPayload(d: seq<Entry>): (r: Option<Value>)
    ensures r.Some? ==> r.value.Dict? && |r.value.entries| == |SIGNED_FIELDS|
    ensures r.Some? ==> forall i :: 0 <= i < |SIGNED_FIELDS| ==> r.value.entries[i].key == SIGNED_FIELDS[i]
    ensures r.Some? ==> forall i :: 0 <= i < |SIGNED_FIELDS| ==> Get(d, SIGNED_FIELDS[i]) == Some(r.value.entries[i].val)
    ensures r.Some? <==> Get(d, "version").Some? && Get(d, "code_ref").Some? && Get(d, "ts").Some?
                         && Get(d, "nonce").Some? && Get(d, "input_hash").Some? && Get(d, "output_hash").Some?
                         && Get(d, "policy_ids").Some? && Get(d, "pubkey").Some?
  {
    var version, codeRef, ts, nonce := Get(d, "version"), Get(d, "code_ref"), Get(d, "ts"), Get(d, "nonce");
    var inputHash, outputHash, policyIds, pubkey :=
      Get(d, "input_hash"), Get(d, "output_hash"), Get(d, "policy_ids"), Get(d, "pubkey");
    if version.Some? && codeRef.Some? && ts.Some? && nonce.Some? && inputHash.Some? && outputHash.Some?
       && policyIds.Some? && pubkey.Some?
    then Some(Dict([
      Entry("version", version.value), Entry("code_ref", codeRef.value), Entry("ts", ts.value),
      Entry("nonce", nonce.value), Entry("input_hash", inputHash.value), Entry("output_hash", outputHash.value),
      Entry("policy_ids", policyIds.value), Entry("pubkey", pubkey.value)]))
    else None
  }

  /**
   * `_verify_signature`: every failure (a missing field, text that does not
   * decode, a public key that is not 32 bytes, a signature that does not
   * verify) is a `false`, never an exception.
   */
  function VerifySignature(p: Primitives, receipt: seq<Entry>): (ok: bool)
    ensures ok <==>
      && SignedPayload(receipt).Some? && Get(receipt, "sig").Some?
      && var signature := PyB64Decode(p, Get(receipt, "sig").value);
         var pk := PyB64Decode(p, Get(receipt, "pubkey").GetOr(Null));
      && signature.Some? && pk.Some? && |pk.value| == PUBLIC_KEY_SIZE
      && p.verify(pk.value, CanonicalBytes(p, SignedPayload(receipt).value), signature.value)
  {
    match SignedPayload(receipt)
    case None => false
    case Some(payload) =>
      var message := CanonicalBytes(p, payload);
      match Get(receipt, "sig")
      case None => false
      case Some(sigText) =>
        match PyB64Decode(p, sigText)
        case None => false
        case Some(signature) =>
          match PyB64Decode(p, Get(receipt, "pubkey").GetOr(Null))
          case None => false
          case Some(publicKey) => |publicKey| == PUBLIC_KEY_SIZE && p.verify(publicKey, message, signature)
  }

  /**
   * The schema check (`Receipt(**receipt)`) is a parameter: `None` accepts,
   * `Some(msg)` is the validation error text. It is sound when it accepts
   * every dictionary whose core fields have their declared types (extra
   * fields allowed) and rejects every dictionary that lacks a required field.
   */
  ghost predicate SchemaSound(validate: seq<Entry> -> Option<string>) {
    && (forall d :: ParseReceipt(d).Some? ==> validate(d).None?)
    && (forall d :: !HasRequiredFields(d) ==> validate(d).Some?)
  }

  /** What the timestamp comparison yields: a verdict, or a `TypeError` naming the type of `ts`. */
  datatype TimestampOutcome = Classified(status: Freshness.TimestampStatus) | NotComparable(typeName: string)

  /** The timestamp check: a missing `ts` counts as 0, and `bool` compares as an `int`. */
  function TimestampCheck(receipt: seq<Entry>, nowMs: int): (r: TimestampOutcome)
    ensures r.NotComparable? <==> AsInt(Get(receipt, "ts").GetOr(Int(0))).None?
    ensures r.NotComparable? ==> r.typeName == TypeName(Get(receipt, "ts").GetOr(Int(0)))
  {
    var ts := Get(receipt, "ts").GetOr(Int(0));
    match AsInt(ts)
    case Some(t) => Classified(Freshness.ClassifySkewFirst(t, nowMs, MAX_RECEIPT_AGE_MS, MAX_CLOCK_SKEW_MS))
    case None => NotComparable(TypeName(ts))
  }

  function SchemaErrors(outcome: Option<string>): (es: seq<VerificationError>)
    ensures |es| <= 1 && (es == [] <==> outcome.None?)
    ensures es != [] ==> es[0].code == "E-SCHEMA-001" && es[0].field == Some("schema")
  {
    match outcome
    case None => []
    case Some(msg) => [VerificationError("E-SCHEMA-001", "Schema validation failed: " + msg, Some("schema"))]
  }

  /** The text of the `TypeError` raised when a value of the named type is compared with an `int`. */
  function ComparisonTypeError(typeName: string): string {
    "'>' not supported between instances of '" + typeName + "' and 'int'"
  }

  function TimestampErrors(outcome: TimestampOutcome): (es: seq<VerificationError>)
    ensures |es| <= 1 && (es == [] <==> outcome == Classified(Freshness.OK))
    ensures es != [] ==> es[0].field == Some("ts")
    ensures outcome == Classified(Freshness.Skew) ==> es[0].code == "E-TS-002"
    ensures outcome == Classified(Freshness.Expired) ==> es[0].code == "E-TS-003"
    ensures outcome.NotComparable? ==> es[0].code == "E-TS-001"
  {
    match outcome
    case Classified(Skew) => [VerificationError("E-TS-002", "Clock skew exceeded", Some("ts"))]
    case Classified(Expired) => [VerificationError("E-TS-003", "Receipt expired", Some("ts"))]
    case Classified(OK) => []
    case NotComparable(t) =>
      [VerificationError("E-TS-001", "Timestamp validation failed: " + ComparisonTypeError(t), Some("ts"))]
  }

  function SignatureErrors(ok: bool): (es: seq<VerificationError>)
    ensures |es| <= 1 && (es == [] <==> ok)
    ensures es != [] ==> es[0].code == "E-SIG-002" && es[0].field == Some("sig")
  {
    if ok then [] else [VerificationError("E-SIG-002", "Signature verification failed", Some("sig"))]
  }

  /** The transparency log is never checked; a `log_inclusion` key, whatever its value, is only reported. */
  function TransparencyDetail(receipt: seq<Entry>): (s: string)
    ensures s == "Not implemented" <==> Get(receipt, "log_inclusion").Some?
  {
    if Get(receipt, "log_inclusion").Some? then "Not implemented" else "Not checked"
  }

  /** The `timestamp` entry of the details for each outcome of the timestamp check. */
  function TimestampDetail(outcome: TimestampOutcome): string {
    match outcome
    case Classified(OK) => "OK"
    case Classified(Skew) => "Skew"
    case Classified(Expired) => "Expired"
    case NotComparable(_) => "Invalid"
  }

  /**
   * `ReceiptVerifier.verify`, with the clock reading a parameter. The three
   * checks run in turn, each appending at most one error and setting its
   * entry of the details; the receipt is valid exactly when no error was
   * appended.
   */
  method Verify(p: Primitives, validate: seq<Entry> -> Option<string>, nowMs: int, receipt: seq<Entry>)
    returns (result: VerificationResult)
    ensures Consistent(result)
    ensures result.valid <==> validate(receipt).None? && TimestampCheck(receipt, nowMs) == Classified(Freshness.OK)
                              && VerifySignature(p, receipt)
    ensures result.errors == SchemaErrors(validate(receipt)) + TimestampErrors(TimestampCheck(receipt, nowMs))
                             + SignatureErrors(VerifySignature(p, receipt))
    ensures result.details.schema == (if validate(receipt).None? then "OK" else "Schema error: " + validate(receipt).value)
    ensures result.details.timestamp == TimestampDetail(TimestampCheck(receipt, nowMs))
    ensures result.details.signature == (if VerifySignature(p, receipt) then "Valid" else "Invalid")
    ensures result.details.transparencyLog == TransparencyDetail(receipt)
  {
    var errors: seq<VerificationError> := [];
    var details := DEFAULT_DETAILS;
    errors, details := CheckSchema(validate(receipt), errors, details);
    errors, details := CheckTimestamp(receipt, nowMs, errors, details);
    errors, details := CheckSignature(VerifySignature(p, receipt), errors, details);
    if Get(receipt, "log_inclusion").Some? {
      details := details.(transparencyLog := "Not implemented");
    }
    result := VerificationResult(|errors| == 0, errors, details);
  }

  /** The schema step of `verify`: appends the schema error, if any, and records the outcome. */
  method CheckSchema(outcome: Option<string>, errors: seq<VerificationError>, details: VerificationDetails)
    returns (errors': seq<VerificationError>, details': VerificationDetails)
    ensures errors' == errors + SchemaErrors(outcome)
    ensures details' == details.(schema := if outcome.None? then "OK" else "Schema error: " + outcome.value)
  {
    errors', details' := errors, details;
    match outcome {
      case None =>
        details' := details'.(schema := "OK");
      case Some(e) =>
        errors' := errors' + [VerificationError("E-SCHEMA-001", "Schema validation failed: " + e, Some("schema"))];
        details' := details'.(schema := "Schema error: " + e);
    }
  }

  /** The timestamp step of `verify`: skew is tested before age; a non-integer `ts` is a `TypeError`. */
  method CheckTimestamp(receipt: seq<Entry>, nowMs: int, errors: seq<VerificationError>, details: VerificationDetails)
    returns (errors': seq<VerificationError>, details': VerificationDetails)
    ensures errors' == errors + TimestampErrors(TimestampCheck(receipt, nowMs))
    ensures details' == details.(timestamp := TimestampDetail(TimestampCheck(receipt, nowMs)))
  {
    errors', details' := errors, details;
    var ts := Get(receipt, "ts").GetOr(Int(0));
    match AsInt(ts) {
      case None =>
        errors' := errors' + [VerificationError("E-TS-001", "Timestamp validation failed: " + ComparisonTypeError(TypeName(ts)), Some("ts"))];
        details' := details'.(timestamp := "Invalid");
      case Some(t) =>
        if t > nowMs + MAX_CLOCK_SKEW_MS {
          errors' := errors' + [VerificationError("E-TS-002", "Clock skew exceeded", Some("ts"))];
          details' := details'.(timestamp := "Skew");
        } else if nowMs - t > MAX_RECEIPT_AGE_MS {
          errors' := errors' + [VerificationError("E-TS-003", "Receipt expired", Some("ts"))];
          details' := details'.(timestamp := "Expired");
        } else {
          details' := details'.(timestamp := "OK");
        }
    }
  }

  /** The signature step of `verify`. */
  method CheckSignature(ok: bool, errors: seq<VerificationError>, details: VerificationDetails)
    returns (errors': seq<VerificationError>, details': VerificationDetails)
    ensures errors' == errors + SignatureErrors(ok)
    ensures details' == details.(signature := if ok then "Valid" else "Invalid")
  {
    errors', details' := errors, details;
    if ok {
      details' := details'.(signature := "Valid");
    } else {
      errors' := errors' + [VerificationError("E-SIG-002", "Signature verification failed", Some("sig"))];
      details' := details'.(signature := "Invalid");
    }
  }

  // ---------------------------------------------------------------- properties

  /** Every code the verifier can report is registered in the error-code table. */
  lemma VerifierCodesRegistered(schema: Option<string>, timestamp: TimestampOutcome, signature: bool)
    ensures forall e | e in SchemaErrors(schema) + TimestampErrors(timestamp) + SignatureErrors(signature) ::
      Registered(e.code)
  {
    assert ERROR_CODES[8].0 == "E-SCHEMA-001";
    assert ERROR_CODES[3].0 == "E-TS-001";
    assert ERROR_CODES[4].0 == "E-TS-002";
    assert ERROR_CODES[5].0 == "E-TS-003";
    assert ERROR_CODES[1].0 == "E-SIG-002";
  }

  /** The timestamp check passes exactly for an integer timestamp inside the tolerance window. */
  lemma TimestampCheckWindow(receipt: seq<Entry>, nowMs: int)
    ensures var ts := AsInt(Get(receipt, "ts").GetOr(Int(0)));
      TimestampCheck(receipt, nowMs) == Classified(Freshness.OK)
      <==> ts.Some? && Freshness.InWindow(ts.value, nowMs, MAX_RECEIPT_AGE_MS, MAX_CLOCK_SKEW_MS)
  {
    var ts := AsInt(Get(receipt, "ts").GetOr(Int(0)));
    if ts.Some? {
      Freshness.ClassifiersAcceptWindow(ts.value, nowMs, MAX_RECEIPT_AGE_MS, MAX_CLOCK_SKEW_MS);
    }
  }

  /** A receipt without `ts` is dated 1970-01-01T00:00:00Z, so after one day it is expired. */
  lemma MissingTimestampExpires(receipt: seq<Entry>, nowMs: int)
    requires Get(receipt, "ts").None? && nowMs > MAX_RECEIPT_AGE_MS
    ensures TimestampCheck(receipt, nowMs) == Classified(Freshness.Expired)
  {
  }

  /**
   * A dictionary missing a required field is never valid: every required
   * field is signed or is `sig`, so the signature check fails whatever the
   * schema check says, and a sound schema check reports it too. The errors
   * `Verify` returns then start with E-SCHEMA-001 and end with E-SIG-002.
   */
  lemma MissingFieldInvalid(
    p: Primitives, validate: seq<Entry> -> Option<string>, nowMs: int, receipt: seq<Entry>)
    requires !HasRequiredFields(receipt)
    ensures !VerifySignature(p, receipt)
    ensures SchemaSound(validate) ==>
      var es := SchemaErrors(validate(receipt)) + TimestampErrors(TimestampCheck(receipt, nowMs))
                + SignatureErrors(VerifySignature(p, receipt));
      |es| >= 2 && es[0].code == "E-SCHEMA-001" && es[|es| - 1].code == "E-SIG-002"
  {
  }

  /**
   * Fields outside the signed set — the extensions and any other extra key —
   * do not affect the signature check, whatever is written into them.
   */
  lemma SignatureIgnoresUnsignedFields(p: Primitives, d: seq<Entry>, k: string, v: Value)
    requires k !in SIGNED_FIELDS && k != "sig"
    ensures VerifySignature(p, Put(d, k, v)) == VerifySignature(p, d)
  {
    forall name | name in SIGNED_FIELDS + ["sig"] ensures Get(Put(d, k, v), name) == Get(d, name) {
    }
    SameSignedFieldsSameVerdict(p, Put(d, k, v), d);
  }

  /** The signature check reads only the signed fields and `sig`. */
  lemma SameSignedFieldsSameVerdict(p: Primitives, d: seq<Entry>, e: seq<Entry>)
    requires forall name | name in SIGNED_FIELDS + ["sig"] :: Get(d, name) == Get(e, name)
    ensures VerifySignature(p, d) == VerifySignature(p, e)
  {
    assert SignedPayload(d) == SignedPayload(e) by {
      assert forall i :: 0 <= i < |SIGNED_FIELDS| ==> Get(d, SIGNED_FIELDS[i]) == Get(e, SIGNED_FIELDS[i]);
    }
    assert Get(d, "sig") == Get(e, "sig");
  }

  /** The verifier extracts from a receipt's flat record exactly the entries the signer signed. */
  lemma SignerVerifierSamePayload(f: FullReceipt)
    ensures SignedPayload(FullReceiptDict(f)) == Some(Dict(SignedEntries(f.receipt)))
  {
    FullReceiptDictGet(f);
  }

  /**
   * A receipt whose `sig` is the signature, under some private key, of its
   * own eight signed fields, and whose `pubkey` is that key's public key,
   * passes the signature check.
   */
  lemma SignedReceiptVerifies(p: Primitives, privateKey: Bytes, f: FullReceipt)
    requires Sound(p)
    requires f.receipt.pubkey == p.b64encode(p.publicKeyOf(privateKey))
    requires f.receipt.sig == p.b64encode(p.sign(privateKey, CanonicalBytes(p, Dict(SignedEntries(f.receipt)))))
    ensures VerifySignature(p, FullReceiptDict(f))
  {
    SignerVerifierSamePayload(f);
    FullReceiptDictGet(f);
  }

  /** The flat record of a receipt is accepted by a sound schema check and carries its timestamp. */
  lemma FlatRecordChecks(validate: seq<Entry> -> Option<string>, f: FullReceipt, nowMs: int)
    requires SchemaSound(validate)
    ensures validate(FullReceiptDict(f)).None?
    ensures TimestampCheck(FullReceiptDict(f), nowMs) == Classified(OK)
            <==> InWindow(f.receipt.ts, nowMs, MAX_RECEIPT_AGE_MS, MAX_CLOCK_SKEW_MS)
    ensures TransparencyDetail(FullReceiptDict(f)) == "Not implemented"
  {
    FlatRecordSchema(validate, f);
    FlatRecordTimestamp(f, nowMs);
    FlatRecordLog(f);
  }

  lemma FlatRecordSchema(validate: seq<Entry> -> Option<string>, f: FullReceipt)
    requires SchemaSound(validate)
    ensures validate(FullReceiptDict(f)).None?
  {
    ReceiptRoundTrip(f);
  }

  lemma FlatRecordTimestamp(f: FullReceipt, nowMs: int)
    ensures TimestampCheck(FullReceiptDict(f), nowMs) == Classified(OK)
            <==> InWindow(f.receipt.ts, nowMs, MAX_RECEIPT_AGE_MS, MAX_CLOCK_SKEW_MS)
  {
    var d := FullReceiptDict(f);
    FullReceiptDictWellFormed(f);
    GetDistinct(d, 2);
    TimestampCheckWindow(d, nowMs);
  }

  lemma FlatRecordLog(f: FullReceipt)
    ensures TransparencyDetail(FullReceiptDict(f)) == "Not implemented"
  {
    FullReceiptDictWellFormed(f);
    GetDistinct(FullReceiptDict(f), 11);
  }

  /**
   * Round trip: a receipt made by a signer whose public key belongs to its
   * private key passes the signature check, and, for a sound schema check,
   * the schema check; it is valid exactly when its timestamp is fresh. Its
   * flat record always carries `log_inclusion`, so the transparency log is
   * reported as not implemented.
   */
  lemma CreatedReceiptVerifies(
    p: Primitives, validate: seq<Entry> -> Option<string>, privateKey: Bytes,
    codeRef: string, inputData: Bytes, outputData: Bytes, policyIds: seq<string>,
    extensions: Option<ReceiptExtensions>, timestamp: Option<int>, nonce: Option<string>,
    clockMs: int, entropy: Bytes, nowMs: int)
    requires Sound(p) && SchemaSound(validate) && |privateKey| == PRIVATE_KEY_SIZE
    ensures var s := NewReceiptSigner(p, privateKey, p.publicKeyOf(privateKey));
      s.Ok? &&
      var r := CreateReceipt(p, s.value, codeRef, inputData, outputData, policyIds, extensions, timestamp, nonce, clockMs, entropy);
      var d := FullReceiptDict(r);
      && VerifySignature(p, d)
      && validate(d).None?
      && (TimestampCheck(d, nowMs) == Classified(OK)
          <==> InWindow(r.receipt.ts, nowMs, MAX_RECEIPT_AGE_MS, MAX_CLOCK_SKEW_MS))
      && TransparencyDetail(d) == "Not implemented"
  {
    var s := NewReceiptSigner(p, privateKey, p.publicKeyOf(privateKey)).value;
    var r := CreateReceipt(p, s, codeRef, inputData, outputData, policyIds, extensions, timestamp, nonce, clockMs, entropy);
    SignedReceiptVerifies(p, privateKey, r);
    FlatRecordChecks(validate, r, nowMs);
  }
}
