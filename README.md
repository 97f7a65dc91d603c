# Sql size allow-list admission policy, modelled in Dafny

This project models an admission-control policy for "Sql" custom resources.
The operator configures an allow list of `spec.parameters.size` values.
The policy has two entry points:

- a settings pre-flight, which checks a settings payload on its own;
- a request validation, which decodes the request envelope, the embedded
  settings and the object under admission, then accepts the object only when
  its size is allowed.

Files:

- `wrappers.dfy` (`Wrappers`): `Option` and `Result`.
- `sdk.dfy` (`PolicySdk`): the SDK boundary. It holds the request envelope
  (raw settings bytes and raw object bytes), the two response shapes, and the
  SDK's `AcceptRequest`/`RejectRequest`/`AcceptSettings`/`RejectSettings`
  as plain constructors.
- `settings.dfy` (`PolicySettings`): models settings.go. It has the
  `Settings` value, how a settings payload is decoded, the `Valid` check, the
  allow-list rule `Allows`, the loop `IsSizeAllowed` proved equal to it, and
  the pre-flight `ValidateSettings`.
- `validate.dfy` (`RequestValidation`): models validate.go. It has the `Sql`
  object (with `metadata` and `spec` as `Option`, since they are pointers in
  the source), the staged decision `Validate`, and lemmas about it.

JSON decoding is foreign. It appears as a total function from raw bytes to a
`Result` whose error text is opaque, one function per target type, bundled
in `Decoders`. Because the decoders are parameters, the short-circuit
property can be stated outright: once a stage fails, the result is the same
whatever the later decoders return.

Missing `metadata` or `spec`: the source dereferences both pointers without
a nil check (validate.go:71, 75, 83), so it faults. The model does not add
a `requires`. It gives this case its own outcome, `Verdict.Panic`, so every
input has exactly one modelled result. Metadata is checked first because its
first dereference is in the debug log entry (validate.go:70-73), which comes
before the size lookup (validate.go:75). The model does not add the
hardening (a 400 rejection naming the missing field) that a rewrite might
add, because the code does not have it.

## Model

| member | source | states |
|---|---|---|
| `PolicySettings.DecodeSettings` | settings.go:42-43 | a decoder failure is passed on with its text unchanged; a decoded `allowed_sizes` list is kept as given (order and duplicates included); an absent or null key gives the empty list |
| `PolicySettings.NewSettingsFromValidationReq` | settings.go:33-37 | only the envelope's settings bytes are decoded; failure passes the decoder's text through, success keeps the list or gives `[]` for an absent key |
| `PolicySettings.Valid` | settings.go:17-19 | for every settings value the check reports valid and no error |
| `PolicySettings.IsSizeAllowed` | settings.go:21-31 | the scan with early exit returns exactly the allow-list rule: true for an empty list, otherwise true iff some entry equals the size |
| `PolicySettings.ValidateSettings` | settings.go:39-58 | the payload is accepted iff it decodes; acceptance has no message; a refusal carries "Provided settings are not valid: " followed by the decoder's error; the bare "Provided settings are not valid" message is never produced |
| `PolicySettings.EmptyListAllowsEverySize` | settings.go:22-24 | an empty allow list lets every size through |
| `PolicySettings.NonEmptyListAllowsExactMembers` | settings.go:25-30 | with a non-empty list, a size passes iff some entry is exactly, case-sensitively, equal to it |
| `PolicySettings.AllowsDependsOnlyOnElements` | settings.go:21-31 | two lists with the same set of entries allow the same sizes, so order and duplicates do not matter |
| `PolicySettings.MediumLargeExample` | settings_test.go:29-42 | with ["medium", "large"], "small" and "Medium" are refused and "medium" and "large" pass |
| `PolicySettings.MissingKeyAllowsEverySize` | settings_test.go:9-27 | a payload without `allowed_sizes` (such as `{}`) decodes to the empty list, is valid, allows every size and passes the pre-flight |
| `PolicySettings.PreflightAgreesWithRequestPath` | settings.go:33-46 | the pre-flight accepts some bytes iff the request path decodes the same bytes as settings |
| `RequestValidation.Validate` | validate.go:39-88 | every response is accepted iff it has no message; an acceptance never has a code; any code present is 400; the size check at validate.go:75 is the rule `Allows`, which `IsSizeAllowed` is proved to compute |
| `RequestValidation.EnvelopeFailureRejects` | validate.go:41-47 | an undecodable envelope is rejected with the decoder's text and code 400 |
| `RequestValidation.SettingsFailureRejects` | validate.go:50-55 | undecodable embedded settings are rejected with the decoder's text and code 400 |
| `RequestValidation.ObjectFailureRejects` | validate.go:62-68 | an undecodable object is rejected with "Cannot decode SQL object: " followed by the decoder's text, and code 400 |
| `RequestValidation.DeniedSizeRejects` | validate.go:75-85 | a decoded object whose size is not allowed is rejected with the message "The '<name>' name is on the deny list. The spec.parameters.size cannot be '<size>'" and no code |
| `RequestValidation.AllowedSizeAccepts` | validate.go:75-87 | a decoded object whose size is allowed is accepted with no message and no code |
| `RequestValidation.MissingSubstructurePanics` | validate.go:70-75 | the call faults iff every decoding stage succeeds and the object lacks `metadata` or `spec`; a missing `metadata` is reported as `NilMetadata`, otherwise a missing `spec` as `NilSpec` |
| `RequestValidation.CodeMarksDecodingFailure` | validate.go:46-84 | a response carries code 400 iff a decoding stage stopped the call; a policy decision never carries a code |
| `RequestValidation.EnvelopeFailureShortCircuits` | validate.go:41-47 | when the envelope fails, the settings and object decoders are not consulted |
| `RequestValidation.SettingsFailureShortCircuits` | validate.go:50-55 | when the settings fail, the object decoder is not consulted |
| `RequestValidation.ObjectFailureShortCircuits` | validate.go:62-68 | when the object fails to decode, the contents of the settings do not matter |
| `RequestValidation.EmptySettingsAcceptEveryObject` | validate_test.go:28-64 | with no allow list configured, every decoded object that has metadata and spec is accepted |
| `RequestValidation.MediumObjectAccepted` | validate_test.go:66-89 | with ["medium", "large"], the test object of size "medium" is accepted with no message and no code |
| `RequestValidation.SmallObjectRejected` | validate_test.go:118-152 | with ["medium", "large"], the test object named "my-db" of size "small" is rejected with exactly the test's expected message and no code |
| `RequestValidation.PreflightRefusalMeansSettingsRejection` | validate.go:50-55 | for a decodable envelope, the pre-flight refuses its settings iff the request pipeline stops at the settings stage |

## Left out

- JSON decoding (`encoding/json` `Unmarshal`) is foreign. It is a parameter returning a `Result` with an opaque error text. Which byte strings it accepts, and the exact texts of its errors, are not modelled.
- The SDK's response encoding (`RejectRequest`, `AcceptRequest`, `RejectSettings`, `AcceptSettings`) is modelled as constructors of the response values. The bytes they produce are not modelled, and neither is the SDK's own handling of an empty message text. The encode/decode round trip of a response belongs to the SDK and is not stated.
- Logging (validate.go:70-79, settings.go:40, 56) is left out, including the comma-join of the allow list for the log entry. The one effect kept is that the debug entry dereferences `metadata`. The model assumes that entry's fields are evaluated. If the host logger drops debug entries without evaluating them, an object without `metadata` but with an allowed size would be accepted rather than fault.
- The nil-pointer fault is modelled as an outcome (`Panic`). What the host then does with the aborted call is not modelled.
- The fixture test (validate_test.go:91-116) reads `test_data/sql.json`, which is not part of this model.
- The module registration glue for the host (main.go) is not part of this model.
- `apiVersion`, `kind`, `namespace`, `spec.id` and `spec.parameters.version` are carried in the datatypes. No decision depends on them.
- `RequestValidation.SmallObjectRejected`: the expected message is written as the concatenation of the format's pieces with "my-db" and "small" filled in. That denotes the same string as the test's literal, but it is not written as a single literal.
