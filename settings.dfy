/**
 * The policy's settings: an allow list of `spec.parameters.size` values,
 * how it is decoded from its JSON payload, the allow-list query and the
 * settings pre-flight entry point (settings.go).
 */
module PolicySettings {
  import opened Wrappers
  import opened PolicySdk

  /** The operator's allow list, in the order given; duplicates are kept. An empty list means "no restriction". */
  datatype Settings = Settings(allowedSizes: seq<string>)

  /**
   * What the JSON decoder reports about the one key it recognizes:
   * `Some(sizes)` when `allowed_sizes` holds an array of strings, `None`
   * when the key is absent or `null`. Unknown keys are dropped by the decoder.
   */
  datatype SettingsJson = SettingsJson(allowedSizes: Option<seq<string>>)

  /** The foreign JSON decoder for a settings payload; a payload it cannot decode gives an opaque error text. */
  type SettingsDecoder = RawJson -> Result<SettingsJson, string>

  /** The outcome of the semantic settings check: a verdict and an optional error. */
  datatype Validity = Validity(valid: bool, err: Option<string>)

  const InvalidSettingsPrefix := "Provided settings are not valid: "
  const InvalidSettingsMessage := "Provided settings are not valid"

  /**
   * Decoding a payload into a fresh, zero-valued `Settings`: a decoder
   * failure is passed on unchanged, an absent `allowed_sizes` leaves the
   * list empty.
   */
  function DecodeSettings(raw: RawJson, unmarshal: SettingsDecoder): (r: Result<Settings, string>)
    ensures r.Failure? <==> unmarshal(raw).Failure?
    ensures r.Failure? ==> r.error == unmarshal(raw).error
    ensures r.Success? && unmarshal(raw).value.allowedSizes.Some? ==> r.value.allowedSizes == unmarshal(raw).value.allowedSizes.value
    ensures r.Success? && unmarshal(raw).value.allowedSizes.None? ==> r.value.allowedSizes == []
  {
    match unmarshal(raw)
    case Failure(e) => Failure(e)
    case Success(json) =>
      match json.allowedSizes
      case None => Success(Settings([]))
      case Some(sizes) => Success(Settings(sizes))
  }

  /**
   * The settings embedded in a validation request: only the envelope's
   * settings bytes are decoded; a decoder failure is passed on unchanged and
   * an absent `allowed_sizes` gives the empty list.
   */
  function NewSettingsFromValidationReq(req: ValidationRequest, unmarshal: SettingsDecoder): (r: Result<Settings, string>)
    ensures r.Failure? <==> unmarshal(req.settings).Failure?
    ensures r.Failure? ==> r.error == unmarshal(req.settings).error
    ensures r.Success? && unmarshal(req.settings).value.allowedSizes.Some? ==> r.value.allowedSizes == unmarshal(req.settings).value.allowedSizes.value
    ensures r.Success? && unmarshal(req.settings).value.allowedSizes.None? ==> r.value.allowedSizes == []
  {
    DecodeSettings(req.settings, unmarshal)
  }

  /** The semantic check on decoded settings; this policy imposes no rule beyond decoding. */
  function Valid(settings: Settings): (r: Validity)
    ensures r.valid && r.err.None?
  {
    Validity(true, None)
  }

  /** The allow-list rule: every size passes an empty list; otherwise only an exact, case-sensitive member does. */
  predicate Allows(settings: Settings, size: string)
  {
    |settings.allowedSizes| == 0 || size in settings.allowedSizes
  }

  /** The allow-list query, scanning the list and stopping at the first exact match. */
  method IsSizeAllowed(settings: Settings, size: string) returns (allowed: bool)
    ensures allowed == Allows(settings, size)
  {
    if |settings.allowedSizes| == 0 {
      return true;
    }
    var i := 0;
    while i < |settings.allowedSizes|
      invariant 0 <= i <= |settings.allowedSizes|
      invariant forall j :: 0 <= j < i ==> settings.allowedSizes[j] != size
    {
      if settings.allowedSizes[i] == size {
        return true;
      }
      i := i + 1;
    }
    return false;
  }

  /**
   * The settings pre-flight: a payload the decoder rejects is refused with
   * the decoder's error after a fixed prefix; every decoded payload is
   * accepted, so the bare refusal is never produced.
   */
  function ValidateSettings(payload: RawJson, unmarshal: SettingsDecoder): (r: SettingsValidationResponse)
    ensures r.valid <==> unmarshal(payload).Success?
    ensures r.valid ==> r.message.None?
    ensures !r.valid ==> r.message == Some(InvalidSettingsPrefix + unmarshal(payload).error)
    ensures r.message != Some(InvalidSettingsMessage)
  {
    match DecodeSettings(payload, unmarshal)
    case Failure(e) => RejectSettings(InvalidSettingsPrefix + e)
    case Success(settings) =>
      match Valid(settings)
      case Validity(_, Some(e)) => RejectSettings(InvalidSettingsPrefix + e)
      case Validity(true, None) => AcceptSettings()
      case Validity(false, None) => RejectSettings(InvalidSettingsMessage)
  }

  /** The elements of an allow list, forgetting order and multiplicity. */
  function Elements(sizes: seq<string>): set<string>
  {
    set s | s in sizes
  }

  /** An empty allow list lets every size through. */
  lemma EmptyListAllowsEverySize(settings: Settings)
    requires settings.allowedSizes == []
    ensures forall size :: Allows(settings, size)
  {
  }

  /** A non-empty allow list lets a size through exactly when some entry equals it. */
  lemma NonEmptyListAllowsExactMembers(settings: Settings, size: string)
    requires settings.allowedSizes != []
    ensures Allows(settings, size) <==> exists i :: 0 <= i < |settings.allowedSizes| && settings.allowedSizes[i] == size
  {
  }

  /** The query depends only on which sizes are listed, not on their order or repetition. */
  lemma AllowsDependsOnlyOnElements(a: Settings, b: Settings, size: string)
    requires Elements(a.allowedSizes) == Elements(b.allowedSizes)
    ensures Allows(a, size) == Allows(b, size)
  {
    if a.allowedSizes != [] {
      assert a.allowedSizes[0] in Elements(b.allowedSizes);
    }
    if b.allowedSizes != [] {
      assert b.allowedSizes[0] in Elements(a.allowedSizes);
    }
    assert size in a.allowedSizes <==> size in Elements(a.allowedSizes);
    assert size in b.allowedSizes <==> size in Elements(b.allowedSizes);
  }

  /** With the list ["medium", "large"], "small" and "Medium" are refused, "medium" and "large" pass. */
  lemma MediumLargeExample()
    ensures !Allows(Settings(["medium", "large"]), "small")
    ensures !Allows(Settings(["medium", "large"]), "Medium")
    ensures Allows(Settings(["medium", "large"]), "medium")
    ensures Allows(Settings(["medium", "large"]), "large")
  {
  }

  /** A payload without `allowed_sizes` (such as `{}`) decodes to an empty list, is valid and allows every size. */
  lemma MissingKeyAllowsEverySize(raw: RawJson, unmarshal: SettingsDecoder)
    requires unmarshal(raw) == Success(SettingsJson(None))
    ensures DecodeSettings(raw, unmarshal) == Success(Settings([]))
    ensures Valid(DecodeSettings(raw, unmarshal).value) == Validity(true, None)
    ensures forall size :: Allows(DecodeSettings(raw, unmarshal).value, size)
    ensures ValidateSettings(raw, unmarshal) == AcceptSettings()
  {
  }

  /** The pre-flight accepts a payload exactly when the request path can decode the same bytes as settings. */
  lemma PreflightAgreesWithRequestPath(req: ValidationRequest, unmarshal: SettingsDecoder)
    ensures ValidateSettings(req.settings, unmarshal).valid <==> NewSettingsFromValidationReq(req, unmarshal).Success?
  {
  }
}
