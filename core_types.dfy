/**
 * The records shared by the Python core and the Rust crate: the receipt with
 * its nine core fields, the three optional extensions, the verification
 * result, the protocol constants and the error-code table.
 */
module CoreTypes {
  import opened Wrappers
  import opened Values
  import Freshness

  const TECP_VERSION := "TECP-0.1"
  const MAX_RECEIPT_AGE_MS := 24 * 60 * 60 * 1000
  const MAX_CLOCK_SKEW_MS := 5 * 60 * 1000

  /** The protocol constants are the thresholds of the default profile. */
  lemma ConstantsAreDefaultProfile()
    ensures MAX_RECEIPT_AGE_MS == 86400000 && MAX_CLOCK_SKEW_MS == 300000
    ensures Freshness.ProfileLimits(Freshness.PROFILE_V01)
         == Freshness.Limits(MAX_RECEIPT_AGE_MS, MAX_CLOCK_SKEW_MS)
  {
  }

  /** The nine core fields; every one but `version` must be supplied. */
  datatype Receipt = Receipt(
    version: string,
    codeRef: string,
    ts: int,
    nonce: string,
    inputHash: string,
    outputHash: string,
    policyIds: seq<string>,
    sig: string,
    pubkey: string)

  datatype KeyErasureScheme = CounterSealTee | SoftwareSimulation
  {
    function Name(): string {
      match this
      case CounterSealTee => "counter+seal@tee"
      case SoftwareSimulation => "sw-sim"
    }
  }

  datatype KeyErasureProof = KeyErasureProof(scheme: KeyErasureScheme, evidence: string)
  datatype Environment = Environment(region: Option<string>, provider: Option<string>)
  datatype LogInclusion = LogInclusion(leafIndex: int, merkleProof: seq<string>, logRoot: string)

  datatype ReceiptExtensions = ReceiptExtensions(
    keyErasure: Option<KeyErasureProof>,
    environment: Option<Environment>,
    logInclusion: Option<LogInclusion>)

  const NO_EXTENSIONS := ReceiptExtensions(None, None, None)

  /** A receipt together with its extensions, stored as one flat record. */
  datatype FullReceipt = FullReceipt(receipt: Receipt, extensions: ReceiptExtensions)

  datatype VerificationError = VerificationError(code: string, message: string, field: Option<string>)
  datatype VerificationDetails = VerificationDetails(
    signature: string, timestamp: string, schema: string, transparencyLog: string)
  datatype VerificationResult = VerificationResult(
    valid: bool, errors: seq<VerificationError>, details: VerificationDetails)

  const DEFAULT_DETAILS := VerificationDetails("Invalid", "OK", "OK", "Not checked")
  const DEFAULT_RESULT := VerificationResult(false, [], DEFAULT_DETAILS)

  /** What a verifier promises of its result: valid exactly when no error was recorded. */
  predicate Consistent(r: VerificationResult) {
    r.valid <==> r.errors == []
  }

  /**
   * The default result is a starting point, not a verdict: it says "not valid"
   * while listing no error; its details say the signature is invalid, the
   * timestamp and schema are "OK" and the log was not checked.
   */
  lemma DefaultResultNotAVerdict()
    ensures !DEFAULT_RESULT.valid && DEFAULT_RESULT.errors == []
    ensures !Consistent(DEFAULT_RESULT)
    ensures DEFAULT_RESULT.details.signature == "Invalid" && DEFAULT_RESULT.details.transparencyLog == "Not checked"
    ensures DEFAULT_RESULT.details.timestamp == "OK" && DEFAULT_RESULT.details.schema == "OK"
  {
  }

  // ---------------------------------------------------------------- error codes

  const ERROR_CODES: seq<(string, string)> := [
    ("E-SIG-001", "Invalid signature format"),
    ("E-SIG-002", "Signature verification failed"),
    ("E-SIG-003", "Public key format invalid"),
    ("E-TS-001", "Timestamp format invalid"),
    ("E-TS-002", "Clock skew exceeded (>5 minutes)"),
    ("E-TS-003", "Receipt expired (>24 hours)"),
    ("E-AGE-001", "Receipt too old"),
    ("E-AGE-002", "Receipt timestamp in future"),
    ("E-SCHEMA-001", "Missing required field"),
    ("E-SCHEMA-002", "Invalid field type"),
    ("E-SCHEMA-003", "Invalid field format"),
    ("E-SCHEMA-004", "Unknown receipt version"),
    ("E-LOG-001", "Log inclusion proof missing"),
    ("E-LOG-002", "Log inclusion proof invalid"),
    ("E-LOG-003", "Root hash mismatch"),
    ("E-LOG-004", "Log service unavailable"),
    ("E-POLICY-001", "Unknown policy ID"),
    ("E-POLICY-002", "Policy validation failed"),
    ("E-POLICY-003", "Policy requirements not met")
  ]

  /** `E-<CLASS>-00n`: an upper-case class name and a three-digit number from 001 to 009. */
  predicate WellShapedCode(c: string) {
    && |c| >= 7
    && c[..2] == "E-"
    && c[|c| - 4..|c| - 1] == "-00"
    && '1' <= c[|c| - 1] <= '9'
    && forall i :: 2 <= i < |c| - 4 ==> 'A' <= c[i] <= 'Z'
  }

  /** A code listed in the table. */
  predicate Registered(code: string) {
    exists i :: 0 <= i < |ERROR_CODES| && ERROR_CODES[i].0 == code
  }

  /**
   * The position of a code's class in the table (SIG, TS, AGE, SCHEMA, LOG,
   * POLICY) times ten, plus its digit; codes with different ranks differ.
   */
  function CodeRank(c: string): int {
    if |c| < 4 then -1
    else
      var cls :=
        if c[2] == 'S' && c[3] == 'I' then 0
        else if c[2] == 'T' then 1
        else if c[2] == 'A' then 2
        else if c[2] == 'S' then 3
        else if c[2] == 'L' then 4
        else 5;
      10 * cls + (c[|c| - 1] as int - '0' as int)
  }

  /** Ranks that increase from each code to the next increase along the whole list. */
  lemma {:induction false} IncreasingRanks(cs: seq<string>)
    requires forall i :: 0 <= i < |cs| - 1 ==> CodeRank(cs[i]) < CodeRank(cs[i + 1])
    ensures forall i, j :: 0 <= i < j < |cs| ==> CodeRank(cs[i]) < CodeRank(cs[j])
  {
    if |cs| > 1 {
      var tail := cs[1..];
      assert forall i :: 0 <= i < |tail| ==> tail[i] == cs[i + 1];
      IncreasingRanks(tail);
      forall i, j | 0 <= i < j < |cs| ensures CodeRank(cs[i]) < CodeRank(cs[j]) {
        if i == 0 && j > 1 {
          assert CodeRank(tail[0]) < CodeRank(tail[j - 1]);
        } else if i > 0 {
          assert CodeRank(tail[i - 1]) < CodeRank(tail[j - 1]);
        }
      }
    }
  }

  function Codes(): (cs: seq<string>)
    ensures |cs| == |ERROR_CODES| && forall i :: 0 <= i < |cs| ==> cs[i] == ERROR_CODES[i].0
  {
    seq(|ERROR_CODES|, i requires 0 <= i < |ERROR_CODES| => ERROR_CODES[i].0)
  }

  /** The table has 19 entries, no code twice, each code well shaped. */
  lemma ErrorCodesWellFormed()
    ensures |ERROR_CODES| == 19
    ensures forall i, j :: 0 <= i < j < |ERROR_CODES| ==> ERROR_CODES[i].0 != ERROR_CODES[j].0
    ensures forall i :: 0 <= i < |ERROR_CODES| ==> WellShapedCode(ERROR_CODES[i].0)
  {
    ErrorCodesDistinct();
    ErrorCodesShaped();
  }

  lemma ErrorCodesDistinct()
    ensures forall i, j :: 0 <= i < j < |ERROR_CODES| ==> ERROR_CODES[i].0 != ERROR_CODES[j].0
  {
    var cs := Codes();
    assert forall i :: 0 <= i < |cs| - 1 ==> CodeRank(cs[i]) < CodeRank(cs[i + 1]);
    IncreasingRanks(cs);
  }

  lemma ErrorCodesShaped()
    ensures forall i :: 0 <= i < |ERROR_CODES| ==> WellShapedCode(ERROR_CODES[i].0)
  {
  }

  // ---------------------------------------------------------------- flat record

  function OptStr(o: Option<string>): Value {
    match o
    case None => Null
    case Some(s) => Str(s)
  }

  function ReceiptEntries(r: Receipt): seq<Entry> {
    [ Entry("version", Str(r.version)),
      Entry("code_ref", Str(r.codeRef)),
      Entry("ts", Int(r.ts)),
      Entry("nonce", Str(r.nonce)),
      Entry("input_hash", Str(r.inputHash)),
      Entry("output_hash", Str(r.outputHash)),
      Entry("policy_ids", StrList(r.policyIds)),
      Entry("sig", Str(r.sig)),
      Entry("pubkey", Str(r.pubkey)) ]
  }

  function KeyErasureValue(k: KeyErasureProof): (v: Value)
    ensures WellFormed(v)
  {
    Dict([Entry("scheme", Str(k.scheme.Name())), Entry("evidence", Str(k.evidence))])
  }

  function EnvironmentValue(e: Environment): (v: Value)
    ensures WellFormed(v)
  {
    Dict([Entry("region", OptStr(e.region)), Entry("provider", OptStr(e.provider))])
  }

  function LogInclusionValue(l: LogInclusion): (v: Value)
    ensures WellFormed(v)
  {
    Dict([Entry("leaf_index", Int(l.leafIndex)), Entry("merkle_proof", StrList(l.merkleProof)),
          Entry("log_root", Str(l.logRoot))])
  }

  function OptValue<T>(o: Option<T>, f: T -> Value): Value {
    match o
    case None => Null
    case Some(x) => f(x)
  }

  /**
   * The flat record of a full receipt (pydantic `.dict()`, serde with
   * `#[serde(flatten)]`): the nine core keys, then the three extension keys,
   * an absent extension stored as null.
   */
  function FullReceiptDict(f: FullReceipt): (d: seq<Entry>)
    ensures |d| == 12 && d[..9] == ReceiptEntries(f.receipt)
  {
    ReceiptEntries(f.receipt) + [
      Entry("key_erasure", OptValue(f.extensions.keyErasure, KeyErasureValue)),
      Entry("environment", OptValue(f.extensions.environment, EnvironmentValue)),
      Entry("log_inclusion", OptValue(f.extensions.logInclusion, LogInclusionValue)) ]
  }

  // ---------------------------------------------------------------- decoding

  function AsStr(v: Value): Option<string> {
    if v.Str? then Some(v.s) else None
  }

  function AsIntStrict(v: Value): Option<int> {
    if v.Int? then Some(v.i) else None
  }

  function AsStrList(v: Value): (r: Option<seq<string>>)
    ensures r.Some? <==> v.List? && forall i :: 0 <= i < |v.items| ==> v.items[i].Str?
    ensures r.Some? ==> StrList(r.value) == v
  {
    if v.List? && forall i :: 0 <= i < |v.items| ==> v.items[i].Str? then
      Some(seq(|v.items|, i requires 0 <= i < |v.items| => v.items[i].s))
    else None
  }

  lemma StrListRoundTrip(xs: seq<string>)
    ensures AsStrList(StrList(xs)) == Some(xs)
  {
    var v := StrList(xs);
    assert forall i :: 0 <= i < |v.items| ==> v.items[i].Str?;
    var ys := seq(|v.items|, i requires 0 <= i < |v.items| => v.items[i].s);
    assert ys == xs;
  }

  function AsOptStr(v: Value): Option<Option<string>> {
    match v
    case Null => Some(None)
    case Str(s) => Some(Some(s))
    case _ => None
  }

  /** A required field of the given shape. */
  function Field<T>(d: seq<Entry>, k: string, shape: Value -> Option<T>): Option<T> {
    match Get(d, k)
    case None => None
    case Some(v) => shape(v)
  }

  /**
   * `Receipt(**d)`: every core field but `version` must be present with its
   * declared type; a missing `version` is "TECP-0.1"; other keys are allowed
   * and ignored.
   */
  function ParseReceipt(d: seq<Entry>): (r: Option<Receipt>)
    ensures r.Some? ==> HasRequiredFields(d)
    ensures r.Some? && Get(d, "version").None? ==> r.value.version == TECP_VERSION
  {
    var version := match Get(d, "version") case None => Some(TECP_VERSION) case Some(v) => AsStr(v);
    var codeRef, ts := Field(d, "code_ref", AsStr), Field(d, "ts", AsIntStrict);
    var nonce, inputHash := Field(d, "nonce", AsStr), Field(d, "input_hash", AsStr);
    var outputHash, policyIds := Field(d, "output_hash", AsStr), Field(d, "policy_ids", AsStrList);
    var sig, pubkey := Field(d, "sig", AsStr), Field(d, "pubkey", AsStr);
    if version.Some? && codeRef.Some? && ts.Some? && nonce.Some? && inputHash.Some? && outputHash.Some?
       && policyIds.Some? && sig.Some? && pubkey.Some?
    then Some(Receipt(version.value, codeRef.value, ts.value, nonce.value, inputHash.value,
                      outputHash.value, policyIds.value, sig.value, pubkey.value))
    else None
  }

  /** The fields that `Receipt(**d)` refuses to do without: all core fields but `version`. */
  predicate HasRequiredFields(d: seq<Entry>) {
    && Get(d, "code_ref").Some? && Get(d, "ts").Some? && Get(d, "nonce").Some?
    && Get(d, "input_hash").Some? && Get(d, "output_hash").Some? && Get(d, "policy_ids").Some?
    && Get(d, "sig").Some? && Get(d, "pubkey").Some?
  }

  function ParseKeyErasure(v: Value): Option<KeyErasureProof> {
    if !v.Dict? then None
    else
      match (Field(v.entries, "scheme", AsStr), Field(v.entries, "evidence", AsStr))
      case (Some("counter+seal@tee"), Some(e)) => Some(KeyErasureProof(CounterSealTee, e))
      case (Some("sw-sim"), Some(e)) => Some(KeyErasureProof(SoftwareSimulation, e))
      case _ => None
  }

  function ParseEnvironment(v: Value): Option<Environment> {
    if !v.Dict? then None
    else
      var region := match Get(v.entries, "region") case None => Some(None) case Some(x) => AsOptStr(x);
      var provider := match Get(v.entries, "provider") case None => Some(None) case Some(x) => AsOptStr(x);
      if region.Some? && provider.Some? then Some(Environment(region.value, provider.value)) else None
  }

  function ParseLogInclusion(v: Value): Option<LogInclusion> {
    if !v.Dict? then None
    else
      match (Field(v.entries, "leaf_index", AsIntStrict),
             Field(v.entries, "merkle_proof", AsStrList), Field(v.entries, "log_root", AsStr))
      case (Some(i), Some(m), Some(root)) => Some(LogInclusion(i, m, root))
      case _ => None
  }

  /** An optional field: absent or null is `None`, anything else must decode. */
  function OptionalField<T>(d: seq<Entry>, k: string, parse: Value -> Option<T>): Option<Option<T>> {
    match Get(d, k)
    case None => Some(None)
    case Some(Null) => Some(None)
    case Some(v) => match parse(v) case None => None case Some(x) => Some(Some(x))
  }

  /** `FullReceipt(**d)`: the core receipt plus the three optional extensions. */
  function ParseFullReceipt(d: seq<Entry>): (r: Option<FullReceipt>)
    ensures r.Some? ==> ParseReceipt(d) == Some(r.value.receipt)
    ensures r.Some? && Get(d, "key_erasure").None? && Get(d, "environment").None? && Get(d, "log_inclusion").None?
            ==> r.value.extensions == NO_EXTENSIONS
  {
    var r, k := ParseReceipt(d), OptionalField(d, "key_erasure", ParseKeyErasure);
    var e, l := OptionalField(d, "environment", ParseEnvironment), OptionalField(d, "log_inclusion", ParseLogInclusion);
    if r.Some? && k.Some? && e.Some? && l.Some? then Some(FullReceipt(r.value, ReceiptExtensions(k.value, e.value, l.value)))
    else None
  }

  /** The flat record is a proper dictionary: no key twice, at any depth. */
  lemma FullReceiptDictWellFormed(f: FullReceipt)
    ensures DistinctKeys(FullReceiptDict(f)) && WellFormed(Dict(FullReceiptDict(f)))
  {
  }

  /** What each key of the flat record holds. */
  lemma FullReceiptDictGet(f: FullReceipt)
    ensures var d, r := FullReceiptDict(f), f.receipt;
      && Get(d, "version") == Some(Str(r.version)) && Get(d, "code_ref") == Some(Str(r.codeRef))
      && Get(d, "ts") == Some(Int(r.ts)) && Get(d, "nonce") == Some(Str(r.nonce))
      && Get(d, "input_hash") == Some(Str(r.inputHash)) && Get(d, "output_hash") == Some(Str(r.outputHash))
      && Get(d, "policy_ids") == Some(StrList(r.policyIds)) && Get(d, "sig") == Some(Str(r.sig))
      && Get(d, "pubkey") == Some(Str(r.pubkey))
      && Get(d, "key_erasure") == Some(OptValue(f.extensions.keyErasure, KeyErasureValue))
      && Get(d, "environment") == Some(OptValue(f.extensions.environment, EnvironmentValue))
      && Get(d, "log_inclusion") == Some(OptValue(f.extensions.logInclusion, LogInclusionValue))
  {
    var d := FullReceiptDict(f);
    FullReceiptDictWellFormed(f);
    GetDistinct(d, 0); GetDistinct(d, 1); GetDistinct(d, 2);
    GetDistinct(d, 3); GetDistinct(d, 4); GetDistinct(d, 5);
    GetDistinct(d, 6); GetDistinct(d, 7); GetDistinct(d, 8);
    GetDistinct(d, 9); GetDistinct(d, 10); GetDistinct(d, 11);
  }

  /** A dictionary holding each core field, in its declared type, under its key reads back as that receipt. */
  lemma ParseReceiptFields(d: seq<Entry>, r: Receipt)
    requires Get(d, "version") == Some(Str(r.version)) && Get(d, "code_ref") == Some(Str(r.codeRef))
    requires Get(d, "ts") == Some(Int(r.ts)) && Get(d, "nonce") == Some(Str(r.nonce))
    requires Get(d, "input_hash") == Some(Str(r.inputHash)) && Get(d, "output_hash") == Some(Str(r.outputHash))
    requires Get(d, "policy_ids") == Some(StrList(r.policyIds)) && Get(d, "sig") == Some(Str(r.sig))
    requires Get(d, "pubkey") == Some(Str(r.pubkey))
    ensures ParseReceipt(d) == Some(r)
  {
    StrListRoundTrip(r.policyIds);
  }

  lemma ReceiptRoundTrip(f: FullReceipt)
    ensures ParseReceipt(FullReceiptDict(f)) == Some(f.receipt)
  {
    FullReceiptDictGet(f);
    ParseReceiptFields(FullReceiptDict(f), f.receipt);
  }

  lemma KeyErasureRoundTrip(k: KeyErasureProof)
    ensures ParseKeyErasure(KeyErasureValue(k)) == Some(k)
  {
    var es := KeyErasureValue(k).entries;
    GetDistinct(es, 0); GetDistinct(es, 1);
  }

  lemma EnvironmentRoundTrip(e: Environment)
    ensures ParseEnvironment(EnvironmentValue(e)) == Some(e)
  {
    var es := EnvironmentValue(e).entries;
    GetDistinct(es, 0); GetDistinct(es, 1);
  }

  lemma LogInclusionRoundTrip(l: LogInclusion)
    ensures ParseLogInclusion(LogInclusionValue(l)) == Some(l)
  {
    var es := LogInclusionValue(l).entries;
    GetDistinct(es, 0); GetDistinct(es, 1); GetDistinct(es, 2);
    StrListRoundTrip(l.merkleProof);
  }

  lemma KeyErasureFieldRoundTrip(f: FullReceipt)
    ensures OptionalField(FullReceiptDict(f), "key_erasure", ParseKeyErasure) == Some(f.extensions.keyErasure)
  {
    FullReceiptDictWellFormed(f);
    GetDistinct(FullReceiptDict(f), 9);
    if f.extensions.keyErasure.Some? { KeyErasureRoundTrip(f.extensions.keyErasure.value); }
  }

  lemma EnvironmentFieldRoundTrip(f: FullReceipt)
    ensures OptionalField(FullReceiptDict(f), "environment", ParseEnvironment) == Some(f.extensions.environment)
  {
    FullReceiptDictWellFormed(f);
    GetDistinct(FullReceiptDict(f), 10);
    if f.extensions.environment.Some? { EnvironmentRoundTrip(f.extensions.environment.value); }
  }

  lemma LogInclusionFieldRoundTrip(f: FullReceipt)
    ensures OptionalField(FullReceiptDict(f), "log_inclusion", ParseLogInclusion) == Some(f.extensions.logInclusion)
  {
    FullReceiptDictWellFormed(f);
    GetDistinct(FullReceiptDict(f), 11);
    if f.extensions.logInclusion.Some? { LogInclusionRoundTrip(f.extensions.logInclusion.value); }
  }

  /** The flat record decodes back to the receipt it was made from. */
  lemma FullReceiptRoundTrip(f: FullReceipt)
    ensures ParseFullReceipt(FullReceiptDict(f)) == Some(f)
  {
    ReceiptRoundTrip(f);
    KeyErasureFieldRoundTrip(f);
    EnvironmentFieldRoundTrip(f);
    LogInclusionFieldRoundTrip(f);
  }
}
