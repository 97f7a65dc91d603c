/**
 * The request validation entry point (validate.go): a pipeline of three
 * decoding stages, each of which ends the call with a 400 rejection when it
 * fails, followed by the allow-list decision on the object's declared size.
 */
module RequestValidation {
  import opened Wrappers
  import opened PolicySdk
  import opened PolicySettings

  /** The object metadata this policy reads. */
  datatype ObjectMeta = ObjectMeta(name: string, namespace: string)

  datatype SqlSpecParameters = SqlSpecParameters(version: string, size: string)

  datatype SqlSpec = SqlSpec(id: string, parameters: SqlSpecParameters)

  /** The resource under admission; `metadata` and `spec` are pointers in the source and may be absent. */
  datatype Sql = Sql(apiVersion: string, kind: string, metadata: Option<ObjectMeta>, spec: Option<SqlSpec>)

  /**
   * The foreign JSON decoder, one function per target type: the request
   * envelope, the embedded settings and the raw object.
   */
  datatype Decoders = Decoders(
    request: RawJson -> Result<ValidationRequest, string>,
    settings: SettingsDecoder,
    sql: RawJson -> Result<Sql, string>)

  /** The pointer found nil when a decoded object lacks a substructure. */
  datatype NilPointer = NilMetadata | NilSpec

  /** What one call does: answer the host, or fault on a nil-pointer dereference. */
  datatype Verdict = Respond(response: ValidationResponse) | Panic(field: NilPointer)

  /** The stage at which the pipeline stops: one of the three decoding stages, or the decision. */
  datatype Stage = EnvelopeStage | SettingsStage | ObjectStage | DecisionStage

  const BadRequest := 400
  const UndecodableObjectPrefix := "Cannot decode SQL object: "

  /** The refusal text for an object whose size is not on the allow list. */
  function DenyMessage(name: string, size: string): string
  {
    "The '" + name + "' name is on the deny list. The spec.parameters.size cannot be '" + size + "'"
  }

  /**
   * The request pipeline. An object without `metadata` or `spec` reaches a
   * nil dereference in the source; that is modelled as `Panic`, metadata
   * first (it is read first, by the debug log entry).
   */
  function Validate(payload: RawJson, json: Decoders): (v: Verdict)
    ensures v.Respond? ==> (v.response.accepted <==> v.response.message.None?)
    ensures v.Respond? && v.response.accepted ==> v.response.code.None?
    ensures v.Respond? && v.response.code.Some? ==> v.response.code.value == BadRequest
  {
    match json.request(payload)
    case Failure(e) => Respond(RejectRequest(e, Code(BadRequest)))
    case Success(req) =>
      match NewSettingsFromValidationReq(req, json.settings)
      case Failure(e) => Respond(RejectRequest(e, Code(BadRequest)))
      case Success(settings) =>
        match json.sql(req.request.rawObject)
        case Failure(e) => Respond(RejectRequest(UndecodableObjectPrefix + e, Code(BadRequest)))
        case Success(sql) =>
          match (sql.metadata, sql.spec)
          case (None, _) => Panic(NilMetadata)
          case (Some(_), None) => Panic(NilSpec)
          case (Some(meta), Some(spec)) =>
            if !Allows(settings, spec.parameters.size) then
              Respond(RejectRequest(DenyMessage(meta.name, spec.parameters.size), NoCode))
            else
              Respond(AcceptRequest())
  }

  /** The first decoding stage that fails, read off the decoders alone, or the decision stage when none fails. */
  function StopStage(payload: RawJson, json: Decoders): Stage
  {
    if json.request(payload).Failure? then EnvelopeStage
    else if json.settings(json.request(payload).value.settings).Failure? then SettingsStage
    else if json.sql(json.request(payload).value.request.rawObject).Failure? then ObjectStage
    else DecisionStage
  }

  /** An undecodable envelope is refused with the decoder's text and code 400. */
  lemma EnvelopeFailureRejects(payload: RawJson, json: Decoders)
    requires json.request(payload).Failure?
    ensures Validate(payload, json) == Respond(ValidationResponse(false, Some(json.request(payload).error), Some(400)))
  {
  }

  /** Undecodable embedded settings are refused with the decoder's text and code 400. */
  lemma SettingsFailureRejects(payload: RawJson, json: Decoders, req: ValidationRequest)
    requires json.request(payload) == Success(req)
    requires json.settings(req.settings).Failure?
    ensures Validate(payload, json) == Respond(ValidationResponse(false, Some(json.settings(req.settings).error), Some(400)))
  {
  }

  /** An undecodable object is refused with "Cannot decode SQL object: " and the decoder's text, and code 400. */
  lemma ObjectFailureRejects(payload: RawJson, json: Decoders, req: ValidationRequest)
    requires json.request(payload) == Success(req)
    requires json.settings(req.settings).Success?
    requires json.sql(req.request.rawObject).Failure?
    ensures Validate(payload, json) == Respond(ValidationResponse(false, Some("Cannot decode SQL object: " + json.sql(req.request.rawObject).error), Some(400)))
  {
  }

  /** A decoded object whose size the allow list refuses is rejected with the deny text and no code. */
  lemma DeniedSizeRejects(payload: RawJson, json: Decoders, req: ValidationRequest, settings: Settings, sql: Sql)
    requires json.request(payload) == Success(req)
    requires DecodeSettings(req.settings, json.settings) == Success(settings)
    requires json.sql(req.request.rawObject) == Success(sql)
    requires sql.metadata.Some? && sql.spec.Some?
    requires !Allows(settings, sql.spec.value.parameters.size)
    ensures Validate(payload, json) == Respond(ValidationResponse(false,
      Some("The '" + sql.metadata.value.name + "' name is on the deny list. The spec.parameters.size cannot be '" + sql.spec.value.parameters.size + "'"),
      None))
  {
  }

  /** A decoded object whose size the allow list lets through is accepted with no message and no code. */
  lemma AllowedSizeAccepts(payload: RawJson, json: Decoders, req: ValidationRequest, settings: Settings, sql: Sql)
    requires json.request(payload) == Success(req)
    requires DecodeSettings(req.settings, json.settings) == Success(settings)
    requires json.sql(req.request.rawObject) == Success(sql)
    requires sql.metadata.Some? && sql.spec.Some?
    requires Allows(settings, sql.spec.value.parameters.size)
    ensures Validate(payload, json) == Respond(ValidationResponse(true, None, None))
  {
  }

  /** A decoded object lacking `metadata` or `spec` makes the call fault instead of answering; a missing `metadata` is reported first. */
  lemma MissingSubstructurePanics(payload: RawJson, json: Decoders)
    ensures Validate(payload, json).Panic? <==>
      StopStage(payload, json) == DecisionStage &&
      var sql := json.sql(json.request(payload).value.request.rawObject).value;
      (sql.metadata.None? || sql.spec.None?)
    ensures StopStage(payload, json) == DecisionStage ==>
      var sql := json.sql(json.request(payload).value.request.rawObject).value;
      (sql.metadata.None? ==> Validate(payload, json) == Panic(NilMetadata)) &&
      (sql.metadata.Some? && sql.spec.None? ==> Validate(payload, json) == Panic(NilSpec))
  {
  }

  /** A code is present exactly when a decoding stage stopped the call, and it is then 400. */
  lemma CodeMarksDecodingFailure(payload: RawJson, json: Decoders)
    requires Validate(payload, json).Respond?
    ensures Validate(payload, json).response.code == (if StopStage(payload, json) == DecisionStage then None else Some(400))
  {
  }

  /** Once the envelope fails, the settings and object decoders are not consulted. */
  lemma EnvelopeFailureShortCircuits(payload: RawJson, json: Decoders, other: Decoders)
    requires json.request(payload).Failure?
    requires other.request(payload) == json.request(payload)
    ensures Validate(payload, json) == Validate(payload, other)
  {
  }

  /** Once the settings fail, the object decoder is not consulted. */
  lemma SettingsFailureShortCircuits(payload: RawJson, json: Decoders, other: Decoders, req: ValidationRequest)
    requires json.request(payload) == Success(req) && other.request(payload) == Success(req)
    requires json.settings(req.settings).Failure?
    requires other.settings(req.settings) == json.settings(req.settings)
    ensures Validate(payload, json) == Validate(payload, other)
  {
  }

  /** Once the object fails to decode, the content of the settings does not matter. */
  lemma ObjectFailureShortCircuits(payload: RawJson, json: Decoders, other: Decoders, req: ValidationRequest)
    requires json.request(payload) == Success(req) && other.request(payload) == Success(req)
    requires json.settings(req.settings).Success? && other.settings(req.settings).Success?
    requires json.sql(req.request.rawObject).Failure?
    requires other.sql(req.request.rawObject) == json.sql(req.request.rawObject)
    ensures Validate(payload, json) == Validate(payload, other)
  {
  }

  /** With no allow list configured, every decoded object with metadata and spec is accepted. */
  lemma EmptySettingsAcceptEveryObject(payload: RawJson, json: Decoders, req: ValidationRequest, sql: Sql)
    requires json.request(payload) == Success(req)
    requires json.settings(req.settings) == Success(SettingsJson(None)) || json.settings(req.settings) == Success(SettingsJson(Some([])))
    requires json.sql(req.request.rawObject) == Success(sql)
    requires sql.metadata.Some? && sql.spec.Some?
    ensures Validate(payload, json) == Respond(AcceptRequest())
  {
  }

  /** The object the request tests use, with a chosen size. */
  function TestObject(size: string): Sql
  {
    Sql("devopstoolkitseries.com/v1alpha1", "Sql", Some(ObjectMeta("my-db", "production")),
        Some(SqlSpec("my-db", SqlSpecParameters("14", size))))
  }

  /** With the list ["medium", "large"], the test object of size "medium" is accepted. */
  lemma MediumObjectAccepted(payload: RawJson, json: Decoders, req: ValidationRequest)
    requires json.request(payload) == Success(req)
    requires json.settings(req.settings) == Success(SettingsJson(Some(["medium", "large"])))
    requires json.sql(req.request.rawObject) == Success(TestObject("medium"))
    ensures Validate(payload, json) == Respond(ValidationResponse(true, None, None))
  {
  }

  /** With the list ["medium", "large"], the test object of size "small" is refused with the exact deny text and no code. */
  lemma SmallObjectRejected(payload: RawJson, json: Decoders, req: ValidationRequest)
    requires json.request(payload) == Success(req)
    requires json.settings(req.settings) == Success(SettingsJson(Some(["medium", "large"])))
    requires json.sql(req.request.rawObject) == Success(TestObject("small"))
    ensures Validate(payload, json) == Respond(ValidationResponse(false,
      Some("The '" + "my-db" + "' name is on the deny list. The spec.parameters.size cannot be '" + "small" + "'"), None))
  {
  }

  /** The pre-flight refuses a request's embedded settings exactly when the request pipeline stops at its settings stage. */
  lemma PreflightRefusalMeansSettingsRejection(payload: RawJson, json: Decoders, req: ValidationRequest)
    requires json.request(payload) == Success(req)
    ensures !ValidateSettings(req.settings, json.settings).valid <==> StopStage(payload, json) == SettingsStage
  {
  }
}
