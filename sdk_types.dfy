/**
 * The Python SDK's records: the profile names, the `Receipt` dataclass with
 * its dictionary form, and the structured error codes.
 *
 * The dataclass does not check its field types, so every field holds a
 * dynamic `Value`; an optional field that is `None` holds `Null`.
 */
module SdkTypes {
  import opened Wrappers
  import opened Values
  import CoreTypes
  import Freshness

  // ---------------------------------------------------------------- profiles

  /** `TECPProfile`: the three profile names. */
  datatype TECPProfile = Lite | V01 | Strict
  {
    function Name(): string {
      match this
      case Lite => Freshness.PROFILE_LITE
      case V01 => Freshness.PROFILE_V01
      case Strict => Freshness.PROFILE_STRICT
    }
  }

  function ParseProfile(s: string): (r: Option<TECPProfile>)
    ensures r.Some? ==> r.value.Name() == s
    ensures r.None? <==> s != Freshness.PROFILE_LITE && s != Freshness.PROFILE_V01 && s != Freshness.PROFILE_STRICT
  {
    if s == Freshness.PROFILE_LITE then Some(Lite)
    else if s == Freshness.PROFILE_V01 then Some(V01)
    else if s == Freshness.PROFILE_STRICT then Some(Strict)
    else None
  }

  /** There are exactly three profiles, with three different names. */
  lemma ProfilesExactlyThree()
    ensures forall q: TECPProfile :: ParseProfile(q.Name()) == Some(q)
    ensures forall s: string :: ParseProfile(s).Some? <==> s in {"tecp-lite", "tecp-v0.1", "tecp-strict"}
  {
  }

  // ---------------------------------------------------------------- receipt

  datatype Receipt = Receipt(
    version: Value, codeRef: Value, ts: Value, nonce: Value, inputHash: Value, outputHash: Value,
    policyIds: Value, sig: Value, pubkey: Value,
    logInclusion: Value, keyErasure: Value, environment: Value, anchors: Value, ext: Value)

  /** The nine fields `to_dict` always writes, in its order. */
  function CoreEntries(r: Receipt): (es: seq<Entry>)
    ensures |es| == 9 && DistinctKeys(es)
  {
    [ Entry("version", r.version), Entry("code_ref", r.codeRef), Entry("ts", r.ts),
      Entry("nonce", r.nonce), Entry("input_hash", r.inputHash), Entry("output_hash", r.outputHash),
      Entry("policy_ids", r.policyIds), Entry("sig", r.sig), Entry("pubkey", r.pubkey) ]
  }

  function OptionalEntry(k: string, v: Value): (es: seq<Entry>)
    ensures es != [] <==> Truthy(v)
  {
    if Truthy(v) then [Entry(k, v)] else []
  }

  /** The `if self.<field>: result[<field>] = ...` steps, one per pair, in order. */
  function OptionalEntriesOf(fields: seq<Entry>): (es: seq<Entry>)
    ensures |es| <= |fields|
  {
    if fields == [] then [] else OptionalEntry(fields[0].key, fields[0].val) + OptionalEntriesOf(fields[1..])
  }

  function OptionalFields(r: Receipt): (fs: seq<Entry>)
    ensures |fs| == 5 && DistinctKeys(fs)
  {
    [Entry("log_inclusion", r.logInclusion), Entry("key_erasure", r.keyErasure),
     Entry("environment", r.environment), Entry("anchors", r.anchors), Entry("ext", r.ext)]
  }

  function OptionalEntries(r: Receipt): seq<Entry> {
    OptionalEntriesOf(OptionalFields(r))
  }

  /** `to_dict`: the core fields, then each optional field that is truthy. */
  function ToDict(r: Receipt): (d: seq<Entry>)
    ensures 9 <= |d| <= 14 && d[..9] == CoreEntries(r)
  {
    CoreEntries(r) + OptionalEntries(r)
  }

  /** The dictionary always holds the nine core fields. */
  lemma ToDictCoreFields(r: Receipt)
    ensures var d := ToDict(r);
      && Get(d, "version") == Some(r.version) && Get(d, "code_ref") == Some(r.codeRef)
      && Get(d, "ts") == Some(r.ts) && Get(d, "nonce") == Some(r.nonce)
      && Get(d, "input_hash") == Some(r.inputHash) && Get(d, "output_hash") == Some(r.outputHash)
      && Get(d, "policy_ids") == Some(r.policyIds) && Get(d, "sig") == Some(r.sig)
      && Get(d, "pubkey") == Some(r.pubkey)
  {
    var c := CoreEntries(r);
    GetDistinct(c, 0); GetDistinct(c, 1); GetDistinct(c, 2); GetDistinct(c, 3); GetDistinct(c, 4);
    GetDistinct(c, 5); GetDistinct(c, 6); GetDistinct(c, 7); GetDistinct(c, 8);
    forall k ensures Get(ToDict(r), k) == if Get(c, k).Some? then Get(c, k) else Get(OptionalEntries(r), k) {
      GetAppend(c, OptionalEntries(r), k);
    }
  }

  /** With distinct field names, a field is found in the optional part exactly when its value is truthy. */
  lemma {:induction false} OptionalEntriesOfGet(fields: seq<Entry>, i: nat)
    requires DistinctKeys(fields) && i < |fields|
    ensures Get(OptionalEntriesOf(fields), fields[i].key)
            == if Truthy(fields[i].val) then Some(fields[i].val) else None
  {
    var k := fields[i].key;
    var head := OptionalEntry(fields[0].key, fields[0].val);
    GetAppend(head, OptionalEntriesOf(fields[1..]), k);
    if i == 0 {
      OptionalEntriesOfAbsent(fields[1..], k);
    } else {
      OptionalEntriesOfGet(fields[1..], i - 1);
    }
  }

  /** A name carried by no field is never found in the optional part. */
  lemma {:induction false} OptionalEntriesOfAbsent(fields: seq<Entry>, k: string)
    requires forall j :: 0 <= j < |fields| ==> fields[j].key != k
    ensures Get(OptionalEntriesOf(fields), k).None?
  {
    if fields != [] {
      GetAppend(OptionalEntry(fields[0].key, fields[0].val), OptionalEntriesOf(fields[1..]), k);
      OptionalEntriesOfAbsent(fields[1..], k);
    }
  }

  /** One optional field: the core part never holds its name, so `to_dict` has it exactly when it is truthy. */
  lemma ToDictOptionalField(r: Receipt, i: nat)
    requires i < 5
    ensures var f := OptionalFields(r)[i];
      Get(ToDict(r), f.key) == if Truthy(f.val) then Some(f.val) else None
  {
    var c, fs := CoreEntries(r), OptionalFields(r);
    GetAbsent(c, fs[i].key);
    GetAppend(c, OptionalEntries(r), fs[i].key);
    OptionalEntriesOfGet(fs, i);
  }

  /** An optional field appears in the dictionary exactly when it is truthy; the core part never holds one. */
  lemma ToDictOptionalFields(r: Receipt)
    ensures var d := ToDict(r);
      && Get(d, "log_inclusion") == (if Truthy(r.logInclusion) then Some(r.logInclusion) else None)
      && Get(d, "key_erasure") == (if Truthy(r.keyErasure) then Some(r.keyErasure) else None)
      && Get(d, "environment") == (if Truthy(r.environment) then Some(r.environment) else None)
      && Get(d, "anchors") == (if Truthy(r.anchors) then Some(r.anchors) else None)
      && Get(d, "ext") == (if Truthy(r.ext) then Some(r.ext) else None)
  {
    ToDictOptionalField(r, 0); ToDictOptionalField(r, 1); ToDictOptionalField(r, 2);
    ToDictOptionalField(r, 3); ToDictOptionalField(r, 4);
  }

  /** An optional field survives `from_dict(to_dict(r))` when it is `None` or truthy; an empty one comes back as `None`. */
  predicate OptionalFieldKept(v: Value) {
    v == Null || Truthy(v)
  }

  /**
   * `from_dict(to_dict(r)) == r` exactly when every optional field is `None`
   * or truthy: a falsy extension such as `{}` is dropped by `to_dict` and
   * read back as `None`.
   */
  lemma DictRoundTrip(r: Receipt)
    ensures FromDict(ToDict(r)) == Ok(r)
            <==> OptionalFieldKept(r.logInclusion) && OptionalFieldKept(r.keyErasure)
                 && OptionalFieldKept(r.environment) && OptionalFieldKept(r.anchors) && OptionalFieldKept(r.ext)
  {
    ToDictCoreFields(r);
    ToDictOptionalFields(r);
  }

  predicate HasCoreKeys(d: seq<Entry>) {
    && Get(d, "version").Some? && Get(d, "code_ref").Some? && Get(d, "ts").Some?
    && Get(d, "nonce").Some? && Get(d, "input_hash").Some? && Get(d, "output_hash").Some?
    && Get(d, "policy_ids").Some? && Get(d, "sig").Some? && Get(d, "pubkey").Some?
  }

  /** Why `from_dict` fails: the first core key it reads that is missing (a `KeyError`). */
  function FromDict(d: seq<Entry>): (r: Result<Receipt, string>)
    ensures r.Err? <==> !HasCoreKeys(d)
    ensures r.Err? ==> Get(d, r.error).None?
    ensures r.Ok? ==> Get(d, "version") == Some(r.value.version) && Get(d, "code_ref") == Some(r.value.codeRef)
                      && Get(d, "ts") == Some(r.value.ts) && Get(d, "nonce") == Some(r.value.nonce)
                      && Get(d, "input_hash") == Some(r.value.inputHash) && Get(d, "output_hash") == Some(r.value.outputHash)
                      && Get(d, "policy_ids") == Some(r.value.policyIds) && Get(d, "sig") == Some(r.value.sig)
                      && Get(d, "pubkey") == Some(r.value.pubkey)
    ensures r.Ok? ==> r.value.logInclusion == Get(d, "log_inclusion").GetOr(Null)
                      && r.value.keyErasure == Get(d, "key_erasure").GetOr(Null)
                      && r.value.environment == Get(d, "environment").GetOr(Null)
                      && r.value.anchors == Get(d, "anchors").GetOr(Null) && r.value.ext == Get(d, "ext").GetOr(Null)
  {
    if Get(d, "version").None? then Err("version")
    else if Get(d, "code_ref").None? then Err("code_ref")
    else if Get(d, "ts").None? then Err("ts")
    else if Get(d, "nonce").None? then Err("nonce")
    else if Get(d, "input_hash").None? then Err("input_hash")
    else if Get(d, "output_hash").None? then Err("output_hash")
    else if Get(d, "policy_ids").None? then Err("policy_ids")
    else if Get(d, "sig").None? then Err("sig")
    else if Get(d, "pubkey").None? then Err("pubkey")
    else Ok(Receipt(
      Get(d, "version").value, Get(d, "code_ref").value, Get(d, "ts").value, Get(d, "nonce").value,
      Get(d, "input_hash").value, Get(d, "output_hash").value, Get(d, "policy_ids").value,
      Get(d, "sig").value, Get(d, "pubkey").value,
      Get(d, "log_inclusion").GetOr(Null), Get(d, "key_erasure").GetOr(Null), Get(d, "environment").GetOr(Null),
      Get(d, "anchors").GetOr(Null), Get(d, "ext").GetOr(Null)))
  }

  /** The dataclass's fourteen field names, the only keywords `Receipt(**kwargs)` accepts. */
  const FIELD_NAMES: set<string> := {
    "version", "code_ref", "ts", "nonce", "input_hash", "output_hash", "policy_ids", "sig", "pubkey",
    "log_inclusion", "key_erasure", "environment", "anchors", "ext"}

  /** The first key, in insertion order, that names no field. */
  function FirstUnknown(kw: seq<Entry>): (r: Option<string>)
    ensures r.None? <==> Keys(kw) <= FIELD_NAMES
    ensures r.Some? ==> r.value in Keys(kw) && r.value !in FIELD_NAMES
  {
    if kw == [] then None
    else
      KeysCons(kw);
      if kw[0].key !in FIELD_NAMES then Some(kw[0].key) else FirstUnknown(kw[1..])
  }

  /** The `TypeError`s the dataclass constructor raises. */
  datatype KwargsError = UnexpectedKeyword(name: string) | MissingArgument(name: string)

  /**
   * `Receipt(**kwargs)`: an unknown keyword is refused first, then a missing
   * core field; otherwise the fields are read as `from_dict` reads them.
   */
  function FromKwargs(kw: seq<Entry>): (r: Result<Receipt, KwargsError>)
    ensures r.Ok? <==> Keys(kw) <= FIELD_NAMES && HasCoreKeys(kw)
    ensures r.Ok? ==> FromDict(kw) == Ok(r.value)
    ensures r.Err? && r.error.UnexpectedKeyword? ==> r.error.name in Keys(kw) && r.error.name !in FIELD_NAMES
    ensures r.Err? && r.error.MissingArgument? ==> Keys(kw) <= FIELD_NAMES && Get(kw, r.error.name).None?
  {
    match FirstUnknown(kw)
    case Some(k) => Err(UnexpectedKeyword(k))
    case None =>
      match FromDict(kw)
      case Err(k) => Err(MissingArgument(k))
      case Ok(receipt) => Ok(receipt)
  }

  // ---------------------------------------------------------------- verification result

  /** The messages `verify_receipt` collects, one constructor per message. */
  datatype VerifyError =
    | InvalidVersion(version: Value)
    | TooOld(age: int, maxAge: int)
    | InFuture(skew: int, maxSkew: int)
    | SignatureFailed
    | StrictRequiresPolicy
      /** An exception that escaped the checks, named by the operand type that raised it. */
    | VerificationError(operandType: string)

  datatype VerificationResult = VerificationResult(
    valid: bool, errors: seq<VerifyError>, warnings: seq<string>, profile: Option<string>,
    errorCodes: Option<seq<string>>)

  // ---------------------------------------------------------------- error codes

  /** `ErrorCode`: one member per entry of the shared error-code table, in the same order. */
  datatype ErrorCode =
    | SigInvalidFormat | SigVerificationFailed | SigPubkeyInvalid
    | TsInvalidFormat | TsClockSkew | TsExpired
    | AgeTooOld | AgeFuture
    | SchemaMissingField | SchemaInvalidType | SchemaInvalidFormat | SchemaUnknownVersion
    | LogMissingProof | LogInvalidProof | LogRootMismatch | LogUnavailable
    | PolicyUnknownId | PolicyValidationFailed | PolicyRequirementsNotMet
  {
    /** The member's `.value`. */
    function Code(): string {
      match this
      case SigInvalidFormat => "E-SIG-001"
      case SigVerificationFailed => "E-SIG-002"
      case SigPubkeyInvalid => "E-SIG-003"
      case TsInvalidFormat => "E-TS-001"
      case TsClockSkew => "E-TS-002"
      case TsExpired => "E-TS-003"
      case AgeTooOld => "E-AGE-001"
      case AgeFuture => "E-AGE-002"
      case SchemaMissingField => "E-SCHEMA-001"
      case SchemaInvalidType => "E-SCHEMA-002"
      case SchemaInvalidFormat => "E-SCHEMA-003"
      case SchemaUnknownVersion => "E-SCHEMA-004"
      case LogMissingProof => "E-LOG-001"
      case LogInvalidProof => "E-LOG-002"
      case LogRootMismatch => "E-LOG-003"
      case LogUnavailable => "E-LOG-004"
      case PolicyUnknownId => "E-POLICY-001"
      case PolicyValidationFailed => "E-POLICY-002"
      case PolicyRequirementsNotMet => "E-POLICY-003"
    }

    /** The member's position in declaration order. */
    function Ordinal(): nat {
      match this
      case SigInvalidFormat => 0
      case SigVerificationFailed => 1
      case SigPubkeyInvalid => 2
      case TsInvalidFormat => 3
      case TsClockSkew => 4
      case TsExpired => 5
      case AgeTooOld => 6
      case AgeFuture => 7
      case SchemaMissingField => 8
      case SchemaInvalidType => 9
      case SchemaInvalidFormat => 10
      case SchemaUnknownVersion => 11
      case LogMissingProof => 12
      case LogInvalidProof => 13
      case LogRootMismatch => 14
      case LogUnavailable => 15
      case PolicyUnknownId => 16
      case PolicyValidationFailed => 17
      case PolicyRequirementsNotMet => 18
    }
  }

  function FromOrdinal(i: nat): (c: ErrorCode)
    requires i < 19
    ensures c.Ordinal() == i
  {
    [SigInvalidFormat, SigVerificationFailed, SigPubkeyInvalid, TsInvalidFormat, TsClockSkew, TsExpired,
     AgeTooOld, AgeFuture, SchemaMissingField, SchemaInvalidType, SchemaInvalidFormat, SchemaUnknownVersion,
     LogMissingProof, LogInvalidProof, LogRootMismatch, LogUnavailable,
     PolicyUnknownId, PolicyValidationFailed, PolicyRequirementsNotMet][i]
  }

  /** The SDK enumeration lists the codes of the shared table, position by position. */
  lemma ErrorCodeMatchesTable(c: ErrorCode)
    ensures c.Ordinal() < |CoreTypes.ERROR_CODES| && c.Code() == CoreTypes.ERROR_CODES[c.Ordinal()].0
  {
  }

  /** The position of a code in a table, if it is there. */
  function IndexOf(table: seq<(string, string)>, code: string): (r: Option<nat>)
    ensures r.Some? ==> r.value < |table| && table[r.value].0 == code
    ensures r.None? ==> forall i :: 0 <= i < |table| ==> table[i].0 != code
  {
    if table == [] then None
    else if table[0].0 == code then Some(0)
    else match IndexOf(table[1..], code)
      case None => None
      case Some(i) => Some(i + 1)
  }

  /** `ErrorCode(code)`: the member whose value is `code`, if any. */
  function ErrorCodeOf(code: string): (r: Option<ErrorCode>)
    ensures r.Some? ==> r.value.Code() == code
  {
    match IndexOf(CoreTypes.ERROR_CODES, code)
    case None => None
    case Some(i) => ErrorCodeMatchesTable(FromOrdinal(i)); Some(FromOrdinal(i))
  }

  /** In a table without repeated codes, the lookup finds each entry's own position. */
  lemma IndexOfDistinct(table: seq<(string, string)>, j: nat)
    requires j < |table| && forall i, i' :: 0 <= i < i' < |table| ==> table[i].0 != table[i'].0
    ensures IndexOf(table, table[j].0) == Some(j)
  {
  }

  lemma FromOrdinalOrdinal(c: ErrorCode)
    ensures FromOrdinal(c.Ordinal()) == c
  {
  }

  /** Looking up a member's value gives the member back, so no two members share a value. */
  lemma {:induction false} ErrorCodeRoundTrip(c: ErrorCode)
    ensures ErrorCodeOf(c.Code()) == Some(c)
    ensures CoreTypes.WellShapedCode(c.Code())
  {
    ErrorCodeMatchesTable(c);
    CoreTypes.ErrorCodesWellFormed();
    IndexOfDistinct(CoreTypes.ERROR_CODES, c.Ordinal());
    FromOrdinalOrdinal(c);
  }
}
