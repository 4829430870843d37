# TECP receipts: signing and verification, modelled in Dafny

TECP (Trusted Ephemeral Computation Protocol) receipts say that a piece of
code processed an input and produced an output without keeping either. A
receipt carries:

- eight signed core fields: `version`, `code_ref`, `ts`, `nonce`,
  `input_hash`, `output_hash`, `policy_ids` and `pubkey`;
- an Ed25519 signature `sig` over the canonical CBOR encoding of those
  eight fields, with map keys sorted recursively;
- optional extensions (`key_erasure`, `environment`, `log_inclusion`,
  and in the Python SDK `anchors` and `ext`), which are not signed.

A verifier runs every check and collects the failures; a receipt is valid
exactly when nothing was collected. The checks are the version or schema,
freshness of `ts` against a maximum age and a maximum clock skew, the
signature, and, under the strict profile, a non-empty policy list. The
profiles set the freshness window:

| profile | maximum age | maximum skew |
|---|---|---|
| `tecp-lite` | 7 days | 15 minutes |
| `tecp-v0.1` (default) | 24 hours | 5 minutes |
| `tecp-strict` | 1 hour | 1 minute |

The same logic exists three times, and each copy is modelled in its own
form:

- **The Python core** (`tecp/receipt.py`, `tecp/types.py`) is in modules
  `CoreTypes` and `CoreReceipt`. `ReceiptSigner.create_receipt` is a
  function. `ReceiptVerifier.verify` is a method that appends errors and
  updates the verification details step by step.
- **The Python SDK** (`tecp_sdk/types.py`, `tecp_sdk/client.py`) is in
  modules `SdkTypes` and `SdkClient`. `create_receipt` is a method that
  fills the receipt dictionary in place, including `dict.update` as a
  loop. `verify_receipt` is a method that appends error messages.
- **The Go SDK** (`tecp/client.go`) is in module `GoClient`.
  `CreateReceipt` copies the extensions map in a loop. `VerifyReceipt`
  reassigns its thresholds and appends errors. Its freshness test is
  modelled on exact differences; the `int64` wrap-around of the test as
  written is modelled separately, under "## Findings".

The shared modules are:

- `Values`: Python's insertion-ordered dictionaries as sequences of
  entries, and an order-free `Tree`, which is also what a Go
  `map[string]interface{}` holds.
- `Canonical`: the recursive key sort.
- `Freshness`: the two timestamp classifiers and the profile table.
- `Decimal`: integer printing, for the default code references.
- `Primitives`: the foreign calls (CBOR, SHA-256, Ed25519, base64, UTF-8)
  as a record of functions passed to every operation. Its `Sound`
  predicate states what the proofs need of them: Ed25519 verifies what it
  signed, base64 decoding inverts encoding, CBOR is injective on
  recursively sorted values, and public
  keys are 32 bytes. Lemmas require `Sound`; it is never assumed.

Every verifier is proved against a specification function that lists the
errors it must report. Each copy has three kinds of lemma beside it:

- a receipt is valid exactly when each individual check passes;
- a receipt made by the matching signer passes the signature check;
- edits to extensions, or to any field outside the signed eight, do not
  change the signed bytes.

## Model

| member | source | states |
|---|---|---|
| Values.Put | packages/tecp-sdk-py/src/tecp_sdk/client.py:125 | `d[k] = v`: afterwards `k` holds `v` and every other key keeps its value |
| Values.PutNew | packages/tecp-sdk-py/src/tecp_sdk/client.py:130 | writing a key the dictionary lacks appends it at the end, as a Python dict does |
| Values.GetUpdate | packages/tecp-sdk-py/src/tecp_sdk/client.py:133-134 | after `d.update(other)`, a key of `other` holds `other`'s value and any other key keeps its value in `d` |
| Values.KeysUpdate | packages/tecp-sdk-py/src/tecp_sdk/client.py:133-134 | the keys after `d.update(other)` are the keys of `d` together with those of `other` |
| Values.KeysPut | packages/tecp-sdk-py/src/tecp_sdk/client.py:137-140 | assigning `environment` adds that key and no other |
| Canonical.SortByKey | packages/tecp-py/tecp/receipt.py:136 | `sorted(d.items())` returns a permutation of the dictionary's entries (same multiset) |
| Canonical.SortByKeySorted | packages/tecp-py/tecp/receipt.py:136 | on a dictionary without repeated keys, `sorted(d.items())` puts keys in strictly increasing order |
| Canonical.SortRecursivelySorts | packages/tecp-py/tecp/receipt.py:133-140 | after the recursive sort, every dictionary at every depth has strictly increasing keys and no key twice |
| Canonical.SortRecursivelyKeepsContent | packages/tecp-py/tecp/receipt.py:133-140 | the recursive sort keeps the same keys, the same values, and every list's order and length, at every depth |
| Canonical.SameContentSameSort | packages/tecp-py/tecp/receipt.py:127-131 | two dictionaries with the same content, in whatever insertion order, sort to the identical value |
| Canonical.SortRecursivelyCanonical | packages/tecp-py/tecp/receipt.py:127-131 | two values sort to the same result if and only if they have the same order-free content |
| Canonical.SortRecursively | packages/tecp-py/tecp/receipt.py:133-140 | a dictionary stays a dictionary with as many entries, a list stays a list of the same length, and any other value is returned unchanged |
| Canonical.SortRecursivelyIdempotent | packages/tecp-py/tecp/receipt.py:133-140 | sorting an already sorted well-formed value changes nothing |
| Primitives.CanonicalBytes | packages/tecp-py/tecp/receipt.py:127-131 | canonicalising is stable: for a well-formed value, encoding the sorted value once more gives the same bytes |
| Primitives.CanonicalBytesDeterministic | packages/tecp-py/tecp/receipt.py:127-131 | with a CBOR encoder injective on recursively sorted values, the signed bytes of two dictionaries are equal if and only if their content is equal, whatever the insertion order |
| Primitives.PyB64Decode | packages/tecp-sdk-py/src/tecp_sdk/client.py:270-273 | Python base64 decoding succeeds only on ASCII text; anything else is a failure |
| Primitives.PyB64RoundTrip | packages/tecp-sdk-py/src/tecp_sdk/client.py:265-273 | decoding what `_b64encode` produced gives back the bytes |
| Decimal.IntStringRoundTrip | packages/tecp-sdk-py/src/tecp_sdk/client.py:112 | the decimal text of `ts` in a default code reference reads back as `ts`, negative values included |
| Decimal.PrefixedIntStringInjective | packages/tecp-sdk-go/tecp/client.go:159-162 | default code references of two different timestamps differ |
| Freshness.ClassifiersAcceptWindow | packages/tecp-py/tecp/receipt.py:186-201 | both the skew-first and the age-first classifier say OK exactly when `now - maxAge <= ts <= now + maxSkew` |
| Freshness.ClassifiersAgree | packages/tecp-sdk-py/src/tecp_sdk/client.py:177-180 | whenever the window is not empty (`maxAge + maxSkew >= 0`) the "too old" and "in the future" branches exclude each other, so the age-first order of the SDKs gives the core's skew-first verdict |
| Freshness.ClassifierBoundaries | packages/tecp-py/tecp/receipt.py:186-199 | both ends of the window are inclusive, and one millisecond past either end is Skew or Expired |
| Freshness.ProfileLimits | packages/tecp-sdk-py/src/tecp_sdk/client.py:57-68 | lite is 7 d / 15 min, strict is 1 h / 1 min, every other profile 24 h / 5 min; skew is positive and below age |
| Freshness.ProfileWindowsNest | packages/tecp-sdk-go/tecp/client.go:238-250 | a receipt fresh under strict is fresh under v0.1, and one fresh under v0.1 is fresh under lite |
| CoreTypes.ConstantsAreDefaultProfile | packages/tecp-py/tecp/types.py:107-109 | `MAX_RECEIPT_AGE_MS` is 86 400 000 and `MAX_CLOCK_SKEW_MS` is 300 000, the v0.1 thresholds |
| CoreTypes.DefaultResultNotAVerdict | packages/tecp-rs/src/types.rs:169-189 | the default result is not valid and has no errors, with signature "Invalid", timestamp and schema "OK" and transparency log "Not checked"; it breaks "valid iff no errors" |
| CoreTypes.ErrorCodesWellFormed | packages/tecp-py/tecp/types.py:115-135 | the table has 19 entries, no code twice, each code of the form `E-<CLASS>-00n` |
| CoreTypes.AsStrList | packages/tecp-py/tecp/types.py:24 | a value is accepted as `List[str]` exactly when it is a list of strings, and then it is that list |
| CoreTypes.StrListRoundTrip | packages/tecp-py/tecp/types.py:24 | a list of policy ids written into a dictionary reads back unchanged |
| CoreTypes.ParseReceipt | packages/tecp-py/tecp/types.py:16-30 | `Receipt(**d)` succeeds only with the eight required fields present; a missing `version` defaults to "TECP-0.1" |
| CoreTypes.ParseFullReceipt | packages/tecp-py/tecp/types.py:62-66 | a full receipt is a receipt plus three optional extensions; absent extensions are None |
| CoreTypes.FullReceiptDict | packages/tecp-rs/src/types.rs:80-88 | the flattened record has 12 keys, and its first nine are the core receipt's |
| CoreTypes.FullReceiptDictWellFormed | packages/tecp-rs/src/types.rs:80-88 | flattening never produces a key twice, at any depth |
| CoreTypes.FullReceiptDictGet | packages/tecp-rs/src/types.rs:80-88 | each key of the flattened record holds the matching field of the receipt or of its extensions |
| CoreTypes.ReceiptRoundTrip | packages/tecp-py/tecp/types.py:16-26 | reading the core receipt back from its flattened record gives the receipt |
| CoreTypes.KeyErasureRoundTrip | packages/tecp-py/tecp/types.py:36-39 | a key-erasure proof reads back from its dictionary |
| CoreTypes.EnvironmentRoundTrip | packages/tecp-py/tecp/types.py:42-45 | an environment record reads back from its dictionary |
| CoreTypes.LogInclusionRoundTrip | packages/tecp-py/tecp/types.py:48-52 | a log-inclusion proof reads back from its dictionary |
| CoreTypes.FullReceiptRoundTrip | packages/tecp-py/tecp/types.py:62-66 | a full receipt, extensions included, reads back from its flattened record |
| CoreReceipt.NewReceiptSigner | packages/tecp-py/tecp/receipt.py:32-44 | a signer is made exactly when the private and public keys both have 32 bytes, and otherwise fails with "Invalid key format" |
| CoreReceipt.PublishedKeyDecodes | packages/tecp-py/tecp/receipt.py:42 | the base64 public key a signer publishes decodes back to its public key |
| CoreReceipt.SignedEntries | packages/tecp-py/tecp/receipt.py:86-95 | the signed dictionary holds exactly the eight core fields, in the signer's order, and no `sig` |
| CoreReceipt.CreateReceipt | packages/tecp-py/tecp/receipt.py:46-120 | `version` is "TECP-0.1"; a supplied timestamp or nonce is used verbatim, otherwise the clock or base64 entropy; hashes are base64 SHA-256; `sig` signs the eight core fields; the extensions are those passed |
| CoreReceipt.ExtensionsNotSigned | packages/tecp-py/tecp/receipt.py:106-118 | two receipts created with different extensions have the identical signed receipt |
| CoreReceipt.SignedPayload | packages/tecp-py/tecp/receipt.py:253-262 | the verifier rebuilds the eight signed fields, in the signer's order, exactly when all eight keys are present; each entry holds the receipt's value for its key |
| CoreReceipt.VerifySignature | packages/tecp-py/tecp/receipt.py:249-278 | `true` exactly when all eight signed fields and `sig` are present, `sig` and `pubkey` decode, the key has 32 bytes, and Ed25519 accepts `sig` over the canonical bytes of the signed fields under that key; every other path is `false` |
| CoreReceipt.SchemaErrors | packages/tecp-py/tecp/receipt.py:169-179 | at most one error, present exactly when validation fails, with code E-SCHEMA-001 on field `schema` |
| CoreReceipt.TimestampErrors | packages/tecp-py/tecp/receipt.py:181-209 | at most one error, absent exactly when the verdict is OK: E-TS-002 for skew, E-TS-003 for expiry, E-TS-001 when `ts` cannot be compared |
| CoreReceipt.SignatureErrors | packages/tecp-py/tecp/receipt.py:211-221 | at most one error, present exactly when the signature check fails, with code E-SIG-002 on field `sig` |
| CoreReceipt.TransparencyDetail | packages/tecp-py/tecp/receipt.py:230-233 | the transparency-log detail is "Not implemented" exactly when the receipt has a `log_inclusion` key |
| CoreReceipt.TimestampCheck | packages/tecp-py/tecp/receipt.py:181-209 | the comparison raises a `TypeError` exactly when `ts` (0 when missing) is not an integer or bool, and the error names the type of `ts` |
| CoreReceipt.CheckSchema | packages/tecp-py/tecp/receipt.py:169-179 | appends the schema errors and sets the schema detail to "OK" or to the validation message |
| CoreReceipt.CheckTimestamp | packages/tecp-py/tecp/receipt.py:181-209 | appends the timestamp errors and sets the timestamp detail to the verdict ("OK", "Skew", "Expired" or "Invalid") |
| CoreReceipt.CheckSignature | packages/tecp-py/tecp/receipt.py:211-221 | appends the signature error when the check fails and sets the signature detail to "Valid" or "Invalid" |
| CoreReceipt.Verify | packages/tecp-py/tecp/receipt.py:149-247 | the errors are the schema, timestamp and signature errors in that order; valid iff all three checks pass iff no error; each detail matches its check |
| CoreReceipt.VerifierCodesRegistered | packages/tecp-py/tecp/receipt.py:174-220 | every error in the schema, timestamp and signature error lists the verifier concatenates has a code from the error-code table |
| CoreReceipt.TimestampCheckWindow | packages/tecp-py/tecp/receipt.py:183-201 | the timestamp check passes exactly for an integer (or bool) `ts` inside the window; a missing `ts` counts as 0 |
| CoreReceipt.MissingTimestampExpires | packages/tecp-py/tecp/receipt.py:184 | a receipt without `ts` is expired once the clock is past one day after the epoch |
| CoreReceipt.MissingFieldInvalid | packages/tecp-py/tecp/receipt.py:169-221 | a receipt missing a required field fails the signature check whatever the schema check says; with a sound schema check, the errors `verify` reports start with E-SCHEMA-001 and end with E-SIG-002, so it is never valid |
| CoreReceipt.SignatureIgnoresUnsignedFields | packages/tecp-py/tecp/receipt.py:253-262 | writing any key outside the eight signed fields and `sig` leaves the signature verdict unchanged |
| CoreReceipt.SignerVerifierSamePayload | packages/tecp-py/tecp/receipt.py:253-265 | from the flattened record of a receipt, the verifier extracts exactly the dictionary the signer signed |
| CoreReceipt.SignedReceiptVerifies | packages/tecp-py/tecp/receipt.py:249-278 | a receipt whose `sig` signs its own eight fields under the key named by its `pubkey` passes the signature check |
| CoreReceipt.FlatRecordChecks | packages/tecp-py/tecp/receipt.py:169-233 | a flattened receipt passes a sound schema check, its timestamp check passes iff its `ts` is in the window, and its log detail is "Not implemented" |
| CoreReceipt.CreatedReceiptVerifies | packages/tecp-py/tecp/receipt.py:46-247 | round trip: a receipt created with a matching key pair passes signature and schema, and is valid exactly while its timestamp is fresh |
| SdkTypes.ParseProfile | packages/tecp-sdk-py/src/tecp_sdk/types.py:13 | a profile name is accepted exactly when it is one of the three literals, and it names that profile |
| SdkTypes.ProfilesExactlyThree | packages/tecp-sdk-py/src/tecp_sdk/types.py:13 | the profiles are exactly `tecp-lite`, `tecp-v0.1` and `tecp-strict`, and each name reads back as its profile |
| SdkTypes.CoreEntries | packages/tecp-sdk-py/src/tecp_sdk/types.py:60-70 | `to_dict` starts with nine distinct core keys |
| SdkTypes.OptionalEntry | packages/tecp-sdk-py/src/tecp_sdk/types.py:73-82 | an optional field is written exactly when its value is truthy |
| SdkTypes.ToDict | packages/tecp-sdk-py/src/tecp_sdk/types.py:58-84 | the dictionary has 9 to 14 keys, and its first nine entries are the core fields |
| SdkTypes.ToDictCoreFields | packages/tecp-sdk-py/src/tecp_sdk/types.py:60-70 | each of the nine core keys holds its field |
| SdkTypes.OptionalEntriesOfGet | packages/tecp-sdk-py/src/tecp_sdk/types.py:73-82 | an optional key is present, with its value, exactly when that value is truthy |
| SdkTypes.ToDictOptionalFields | packages/tecp-sdk-py/src/tecp_sdk/types.py:73-82 | `log_inclusion`, `key_erasure`, `environment`, `anchors` and `ext` each appear exactly when truthy |
| SdkTypes.FromDict | packages/tecp-sdk-py/src/tecp_sdk/types.py:86-104 | fails exactly when a core key is missing, naming a missing key; otherwise the nine core fields are read and absent extensions become None |
| SdkTypes.DictRoundTrip | packages/tecp-sdk-py/src/tecp_sdk/types.py:58-104 | `from_dict(to_dict(r)) == r` if and only if every optional field is None or truthy |
| SdkTypes.FirstUnknown | packages/tecp-sdk-py/src/tecp_sdk/types.py:16-56 | finds no keyword exactly when every keyword is a field name; a keyword it finds is not a field name |
| SdkTypes.FromKwargs | packages/tecp-sdk-py/src/tecp_sdk/types.py:16-56 | `Receipt(**kw)` succeeds exactly when every keyword is a field and the nine core fields are given, and then agrees with `from_dict`; each error names the offending keyword |
| SdkTypes.FromOrdinal | packages/tecp-sdk-py/src/tecp_sdk/types.py:145-177 | each position 0 to 18 of the enumeration names one member |
| SdkTypes.ErrorCodeMatchesTable | packages/tecp-sdk-py/src/tecp_sdk/types.py:145-177 | each `ErrorCode` value is the code at the same position of the core `ERROR_CODES` table |
| SdkTypes.IndexOf | packages/tecp-sdk-py/src/tecp_sdk/types.py:145-177 | finds a position holding the code, or reports that none does |
| SdkTypes.ErrorCodeOf | packages/tecp-sdk-py/src/tecp_sdk/types.py:145-177 | `ErrorCode(code)` returns only a member whose value is `code` |
| SdkTypes.ErrorCodeRoundTrip | packages/tecp-sdk-py/src/tecp_sdk/types.py:145-177 | looking up a member's value gives back that member, so values are distinct; each value has the `E-<CLASS>-00n` form |
| SdkClient.NewTECPClient | packages/tecp-sdk-py/src/tecp_sdk/client.py:44-68 | the arguments are stored as given, and the thresholds are the profile table's entry for the profile passed at construction |
| SdkClient.SigningData | packages/tecp-sdk-py/src/tecp_sdk/client.py:188-197 | the signed dictionary has eight entries, each under one of the eight signed names |
| SdkClient.SigningDataGet | packages/tecp-sdk-py/src/tecp_sdk/client.py:188-197 | each of the eight signed names holds the receipt's field of that name |
| SdkClient.CodeRefOrDefault | packages/tecp-sdk-py/src/tecp_sdk/client.py:112 | an empty or missing code reference becomes `python-sdk:<ts>`, otherwise it is kept |
| SdkClient.PoliciesOrDefault | packages/tecp-sdk-py/src/tecp_sdk/client.py:117 | the policy list is never empty: an empty or missing list becomes exactly `["no_retention"]`, otherwise it is kept |
| SdkClient.Generated | packages/tecp-sdk-py/src/tecp_sdk/client.py:104-130 | the fields `create_receipt` generates, with `sig` the signature of the receipt's own eight signed fields |
| SdkClient.Merged | packages/tecp-sdk-py/src/tecp_sdk/client.py:137-140 | `environment` is always the SDK metadata, whatever the extensions held |
| SdkClient.SignedDataWellFormed | packages/tecp-sdk-py/src/tecp_sdk/client.py:110-130 | the signed dictionary has distinct keys and no `sig`; the dictionary built before the extensions has distinct keys, among the eight signed names and `sig` |
| SdkClient.SignedDataGet | packages/tecp-sdk-py/src/tecp_sdk/client.py:110-130 | that dictionary holds each generated field under its key |
| SdkClient.MergedDictGet | packages/tecp-sdk-py/src/tecp_sdk/client.py:133-134 | after the update, an extension key holds the extension's value and any other key holds the generated one |
| SdkClient.MergedDictKeys | packages/tecp-sdk-py/src/tecp_sdk/client.py:133-142 | the keys that are not receipt fields are exactly the extension keys that are not receipt fields |
| SdkClient.MergedDictFields | packages/tecp-sdk-py/src/tecp_sdk/client.py:142 | when every extension key is a receipt field, the constructor builds exactly the merged receipt |
| SdkClient.MergedKwargs | packages/tecp-sdk-py/src/tecp_sdk/client.py:133-142 | the constructor succeeds exactly when every extension key is a receipt field; otherwise it rejects an extension key |
| SdkClient.AddPubkey | packages/tecp-sdk-py/src/tecp_sdk/client.py:125 | adding `pubkey` to the seven generated fields gives the signed dictionary |
| SdkClient.AddSig | packages/tecp-sdk-py/src/tecp_sdk/client.py:130 | adding `sig` to the signed dictionary appends it as the ninth entry |
| SdkClient.UpdateInPlace | packages/tecp-sdk-py/src/tecp_sdk/client.py:133-134 | the loop writes the extensions one by one and ends with `d.update(other)` |
| SdkClient.CreateOutcomeMeaning | packages/tecp-sdk-py/src/tecp_sdk/client.py:133-142 | creation succeeds exactly when every extension key is a receipt field, and returns the merged receipt; otherwise the error names an extension key |
| SdkClient.SignedReceiptData | packages/tecp-sdk-py/src/tecp_sdk/client.py:104-130 | the in-place construction ends with the generated fields plus `pubkey` and `sig` |
| SdkClient.CreateReceipt | packages/tecp-sdk-py/src/tecp_sdk/client.py:70-142 | no private key is an error; otherwise the outcome is the generated receipt merged with the extensions |
| SdkClient.VersionErrors | packages/tecp-sdk-py/src/tecp_sdk/client.py:166-167 | an error exactly when the version is not "TECP-0.1" |
| SdkClient.TimestampErrors | packages/tecp-sdk-py/src/tecp_sdk/client.py:170-180 | at most one error, absent exactly when `ts` is within the client's window; age first: past the age limit it is "too old" with the age, otherwise past the skew limit it is "in the future" with the skew |
| SdkClient.CheckFreshness | packages/tecp-sdk-py/src/tecp_sdk/client.py:170-180 | appends the timestamp errors for the client's thresholds |
| SdkClient.SignatureValid | packages/tecp-sdk-py/src/tecp_sdk/client.py:183-205 | accepts exactly when `pubkey` decodes to 32 bytes, `sig` decodes, and Ed25519 accepts `sig` over the canonical bytes of the eight signed fields under that key |
| SdkClient.SignatureErrors | packages/tecp-sdk-py/src/tecp_sdk/client.py:183-205 | an error exactly when the signature check fails |
| SdkClient.PolicyErrors | packages/tecp-sdk-py/src/tecp_sdk/client.py:207-210 | an error exactly when the profile is strict and the policy list is falsy |
| SdkClient.CheckPolicies | packages/tecp-sdk-py/src/tecp_sdk/client.py:207-210 | appends the policy error for the profile in force: the argument when given, else the client's |
| SdkClient.VerifyReceipt | packages/tecp-sdk-py/src/tecp_sdk/client.py:144-224 | errors are collected in the source's order (a non-integer `ts` stops the checks); valid iff no error; the warning only when the log is required; the profile reported is the argument or the client's |
| SdkClient.ValidIffChecksPass | packages/tecp-sdk-py/src/tecp_sdk/client.py:164-224 | a receipt is valid exactly when version, timestamp, signature and strict policy checks all pass |
| SdkClient.ProfileArgumentKeepsThresholds | packages/tecp-sdk-py/src/tecp_sdk/client.py:174-175 | the `profile` argument does not change the thresholds: a v0.1 client asked for strict accepts a two-hour-old receipt's timestamp |
| SdkClient.MergeKeepsSignedFields | packages/tecp-sdk-py/src/tecp_sdk/client.py:133-140 | extensions that avoid the signed names and `sig` leave the signed fields and the signature unchanged |
| SdkClient.GeneratedSignatureValid | packages/tecp-sdk-py/src/tecp_sdk/client.py:183-205 | the generated receipt passes the signature check |
| SdkClient.CreatedReceiptVerifies | packages/tecp-sdk-py/src/tecp_sdk/client.py:70-224 | round trip: a created receipt, with extensions that avoid the signed fields, verifies without error while fresh, under any `profile` argument |
| GoClient.Wrap64 | packages/tecp-sdk-go/tecp/client.go:230-232 | `int64` wrap-around: the result is congruent to the exact value modulo 2^64, and equal to it when it fits |
| GoClient.NewClient | packages/tecp-sdk-go/tecp/client.go:128-140 | an empty profile becomes `tecp-v0.1`; key, log URL and options are kept |
| GoClient.SortKeys | packages/tecp-sdk-go/tecp/client.go:341-366 | the sort rebuilds every map and slice with the same content, so the result is the value itself, with slice order and length kept |
| GoClient.CanonicalCBOR | packages/tecp-sdk-go/tecp/client.go:327-338 | sorting before encoding changes nothing: the bytes are the canonical encoding of the map itself |
| GoClient.SigningDataKeys | packages/tecp-sdk-go/tecp/client.go:197-206 | the signing map has exactly the eight signed keys, without `sig` and extensions, and each key holds the receipt's field |
| GoClient.SigningDataIgnoresUnsignedFields | packages/tecp-sdk-go/tecp/client.go:184-214 | changing the signature or the extensions does not change the signing map |
| GoClient.CopyExtensions | packages/tecp-sdk-go/tecp/client.go:184-188 | the copy loop ends with the destination overlaid by every caller extension |
| GoClient.UnsignedReceipt | packages/tecp-sdk-go/tecp/client.go:148-194 | the receipt before signing: version, timestamp, base64 nonce and hashes, the defaulted code reference and policies, the extensions plus `environment`, the public key, and an empty signature |
| GoClient.CreateReceipt | packages/tecp-sdk-go/tecp/client.go:143-217 | no key or no nonce is an error; otherwise the fields are filled in (nil policies become `["no_retention"]`, an empty slice is kept, an empty code reference becomes `go-sdk:<ts>`), the extensions plus `environment` are attached, and the receipt is signed by the key |
| GoClient.VerifySignature | packages/tecp-sdk-go/tecp/client.go:282-324 | each error exactly in its case: a public key that is not base64, one that is not 32 bytes, a signature that is not base64 (with a good key), and a mismatch; accepts exactly when both decode, the key has 32 bytes and Ed25519 accepts the signature over the canonical CBOR of the signing map |
| GoClient.VersionErrors | packages/tecp-sdk-go/tecp/client.go:225-227 | an error exactly when the version is not "TECP-0.1" |
| GoClient.TimestampErrors | packages/tecp-sdk-go/tecp/client.go:252-256 | at most one error, absent exactly when `ts` is within the window; age first: past the age limit it is "too old" with the age, otherwise past the skew limit it is "in the future" with the skew |
| GoClient.SignatureErrors | packages/tecp-sdk-go/tecp/client.go:259-261 | an error exactly when `verifySignature` fails |
| GoClient.PolicyErrors | packages/tecp-sdk-go/tecp/client.go:264-266 | an error exactly when the profile is strict and the policy slice is nil or empty |
| GoClient.Thresholds | packages/tecp-sdk-go/tecp/client.go:233-250 | the thresholds of the profile in force are the profile table's entry |
| GoClient.CheckTimestamp | packages/tecp-sdk-go/tecp/client.go:252-256 | the age-then-skew test yields the timestamp errors |
| GoClient.VerifyReceipt | packages/tecp-sdk-go/tecp/client.go:220-279 | errors are version, timestamp, signature and policy errors in that order; valid iff none; the warning only when the log is required; the profile reported is the option's or the client's |
| GoClient.ValidIffChecksPass | packages/tecp-sdk-go/tecp/client.go:220-279 | a receipt is valid exactly when version, timestamp, signature and strict policy checks all pass under the profile in force |
| GoClient.OptionsProfileSetsThresholds | packages/tecp-sdk-go/tecp/client.go:238-250 | `options.Profile` selects the thresholds: a v0.1 client verifying under strict reports a two-hour-old receipt as too old |
| GoClient.SignedReceiptPassesSignatureCheck | packages/tecp-sdk-go/tecp/client.go:282-324 | a receipt signed by a key and carrying its public key passes `verifySignature` |
| GoClient.CreatedReceiptVerifies | packages/tecp-sdk-go/tecp/client.go:143-279 | round trip: a receipt signed by `CreateReceipt` verifies without error while fresh, unless strict meets an empty policy slice |
| GoClient.EmptyPoliciesFailStrict | packages/tecp-sdk-go/tecp/client.go:164-167 | an empty non-nil policy slice is kept at creation and then refused under strict |
| GoClient.AsWrittenAcceptsAncientReceipt | packages/tecp-sdk-go/tecp/client.go:230-256 | with wrapping `int64` differences, a receipt dated 2^63 ms before any non-negative `now` passes the freshness test under every profile, while the exact test reports it too old |
| GoClient.FreshnessAsWritten | packages/tecp-sdk-go/tecp/client.go:230-256 | the freshness test with wrapping `int64` differences; when `now - ts` fits in `int64` it gives the exact test's verdict |

## Left out

- The wall clock and entropy are parameters (`clockMs`, `nowMs`/`now`, `entropy`). The 16-byte nonce length is not enforced.
- Ed25519, SHA-256, base64, UTF-8 and CBOR are foreign libraries. They appear as fields of `Primitives.Primitives`, and the only assumption about them is `Sound`. The model sorts keys itself; how the CBOR libraries order map keys in their canonical modes (RFC 7049 section 3.9) is not modelled.
- Pydantic validation (`Receipt(**receipt)` in `ReceiptVerifier.verify`) is a parameter. `CoreReceipt.SchemaSound` states what is assumed of it where a lemma needs it.
- Exception texts and formatted messages are not modelled. The SDK and Go errors are constructors that carry the numbers and causes the messages print.
- Performance metrics (verification time, receipt size) in `ReceiptVerifier.verify` are left out.
- Async execution, `enforce_policies`/`PolicyRuntime`, HTTP clients and the transparency-log stubs are left out. Only the warning and the "Not implemented" detail are modelled.
- Floats and bytes inside receipt dictionaries are left out. Values are null, booleans, integers, strings, lists and dictionaries.
- The Go JSON helpers (`ToJSON`, `FromJSON`), `CalculateReceiptSize` and `GenerateKeyPair` are not part of this model. The inline CBOR/JSON layout of `Extensions` is left out with them.
- GoClient.CreateReceipt: the error branch of `canonicalCBOR` is not modelled, because the encoder is a total function here. A malformed private key, which makes `ed25519.Sign` panic, is not modelled either.
- GoClient.VerifyReceipt: the returned `error` is always nil in the source and is dropped. The freshness test uses exact differences, not the source's wrapping `int64` ones; the wrapping test is `GoClient.FreshnessAsWritten`, under "## Findings".
- GoClient.CheckTimestamp: computes `now - ts` and `ts - now` exactly, where the source's `int64` subtraction wraps; the wrapping test is `GoClient.FreshnessAsWritten`.
- GoClient.TimestampErrors: this is the exact-arithmetic check, not the wrapping one. The source as written is `GoClient.FreshnessAsWritten`, under "## Findings".
- CoreTypes.ParseReceipt: Rust's `i64` for `ts` and `u64` for `leaf_index` are unbounded integers here. Pydantic's coercions, such as strings of digits, are not modelled.
- SdkTypes.FromKwargs: reports only the first missing argument, whereas Python's `TypeError` lists all of them.
- CoreReceipt.CreateReceipt: a failure inside signing, which the source re-raises as `SignatureError("Signing failed: …")`, is not modelled, because `sign` is a total function here.
- SdkClient.CreateReceipt: an exception raised by `private_key.sign` is not modelled, because `sign` is a total function here. The method requires the extension dictionary to have distinct keys, as every Python dict does. A private key object is present or absent; its Python truthiness is not modelled further.
- SdkClient.SignatureValid: `Ed25519PublicKey.from_public_bytes` is assumed to accept every 32-byte key; a 32-byte key the library rejects is not modelled.
- The Python SDK's `ErrorCode` member names (`SIG_INVALID_FORMAT`, …) are Dafny constructor names. Only their values are checked against the table.

## Findings

| source | as written | input that shows it | evidently intended | confidence | as-written member | corrected member |
|---|---|---|---|---|---|---|
| packages/tecp-sdk-go/tecp/client.go:230-256 | `age := now - receipt.Timestamp` and `skew := receipt.Timestamp - now` are `int64` and wrap around, so with age = skew = -2^63 neither `age > maxAge` nor `skew > maxSkew` fires | `now = 1700000000000`, `Timestamp = now - 2^63`, any profile: verdict OK | a receipt outside the window is refused, i.e. the test on the exact differences | not executed | GoClient.AsWrittenAcceptsAncientReceipt | GoClient.TimestampErrors |
