/**
 * The boundary between the policy and the host's policy SDK: the request
 * envelope the host delivers and the two responses the policy hands back.
 * Only the fields this policy reads or writes are modelled; the byte
 * encoding of the responses belongs to the SDK and is not modelled.
 */
module PolicySdk {
  import opened Wrappers

  /** Raw JSON text as the host delivers it. */
  type RawJson = seq<bv8>

  /** The part of the admission request this policy reads: the raw object under admission. */
  datatype KubernetesAdmissionRequest = KubernetesAdmissionRequest(rawObject: RawJson)

  /** The envelope of one validation call: the admission request and the embedded raw settings. */
  datatype ValidationRequest = ValidationRequest(request: KubernetesAdmissionRequest, settings: RawJson)

  /** The decision on one admission request; `code` is an HTTP-style status code. */
  datatype ValidationResponse = ValidationResponse(accepted: bool, message: Option<string>, code: Option<int>)

  /** The verdict on a settings payload. */
  datatype SettingsValidationResponse = SettingsValidationResponse(valid: bool, message: Option<string>)

  /** The absent code of a rejection that is a policy decision rather than an input error. */
  const NoCode: Option<int> := None

  /** A rejection code. */
  function Code(code: int): Option<int>
  {
    Some(code)
  }

  /** An acceptance: no message and no code. */
  function AcceptRequest(): ValidationResponse
  {
    ValidationResponse(true, None, None)
  }

  /** A rejection carrying `message` and the given (possibly absent) code. */
  function RejectRequest(message: string, code: Option<int>): ValidationResponse
  {
    ValidationResponse(false, Some(message), code)
  }

  /** Settings accepted: no message. */
  function AcceptSettings(): SettingsValidationResponse
  {
    SettingsValidationResponse(true, None)
  }

  /** Settings rejected with `message`. */
  function RejectSettings(message: string): SettingsValidationResponse
  {
    SettingsValidationResponse(false, Some(message))
  }
}
