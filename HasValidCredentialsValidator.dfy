/**
 * Credential validation of a configured step: a short-circuiting chain of
 * checks (fetch the WSDL content, check that it is XML, build the
 * webservice) whose first failure becomes one violation on a fixed field,
 * and a boolean credential check whose answers are cached per key.
 */
module HasValidCredentialsValidator {
  import opened Common

  /** The client parameters built from a configured step. */
  datatype ClientParameters = ClientParameters(
    soapUsername: string, soapApiKey: string, magentoUrl: string,
    wsdlUrl: string, httpLogin: string, httpPassword: string)

  /** The value under validation: a configured Magento step, or anything else. */
  datatype ValidatedValue = MagentoItemStep(parameters: ClientParameters) | OtherValue

  /** The exceptions the checks can throw; `Unhandled` stands for any exception no catch clause names. */
  datatype CheckException =
    | NotReachableUrl
    | InvalidSoapUrl
    | InvalidXml
    | InvalidCredential
    | SoapCall(message: string)
    | Unhandled(message: string)

  datatype StepOutcome = Passed | Threw(exception: CheckException)

  /**
   * How the three collaborators behave for one set of parameters:
   * `getSoapUrlContent`, `checkXml` on that content, and `getWebservice`.
   */
  datatype Probes = Probes(urlContent: StepOutcome, xmlCheck: StepOutcome, webservice: StepOutcome)

  type Environment = ClientParameters -> Probes

  datatype Stage = UrlContent | XmlCheck | Webservice

  /** The form fields a violation can be attached to. */
  datatype Field = WsdlUrl | SoapUsername

  /** The constraint's messages, or the raw text of a SOAP call failure. */
  datatype Message = UrlNotReachableMessage | SoapNotValidMessage | XmlNotValidMessage | UsernameMessage | RawMessage(text: string)

  datatype Violation = Violation(field: Field, message: Message)

  /** How `validate` ends: normally, with at most one violation added, or with an exception it does not catch. */
  datatype ValidateOutcome = Completed(violation: Option<Violation>) | Escaped(exception: CheckException)

  /** The outcome of `validate` and the checks it ran, in order. */
  datatype ChainResult = ChainResult(outcome: ValidateOutcome, ran: seq<Stage>)

  /** The outcome of `areValidSoapCredentials`, the cache it leaves and the checks it ran. */
  datatype CredentialResult = CredentialResult(answer: Result<bool, CheckException>, cache: map<string, bool>, ran: seq<Stage>)

  const AllStages := [UrlContent, XmlCheck, Webservice]

  function StageOutcome(probes: Probes, s: Stage): StepOutcome
  {
    match s
    case UrlContent => probes.urlContent
    case XmlCheck => probes.xmlCheck
    case Webservice => probes.webservice
  }

  /** The catch clauses of `validate`: which violation each exception becomes, and on which field. */
  function ViolationFor(e: CheckException): (r: ValidateOutcome)
    ensures r.Escaped? <==> e.Unhandled?
    ensures r.Completed? ==> r.violation.Some?
    ensures e.NotReachableUrl? || e.InvalidSoapUrl? || e.InvalidXml? ==> r.violation.value.field == WsdlUrl
    ensures e.InvalidCredential? || e.SoapCall? ==> r.violation.value.field == SoapUsername
    ensures e.SoapCall? ==> r.violation.value.message == RawMessage(e.message)
  {
    match e
    case NotReachableUrl => Completed(Some(Violation(WsdlUrl, UrlNotReachableMessage)))
    case InvalidSoapUrl => Completed(Some(Violation(WsdlUrl, SoapNotValidMessage)))
    case InvalidXml => Completed(Some(Violation(WsdlUrl, XmlNotValidMessage)))
    case InvalidCredential => Completed(Some(Violation(SoapUsername, UsernameMessage)))
    case SoapCall(message) => Completed(Some(Violation(SoapUsername, RawMessage(message))))
    case Unhandled(_) => Escaped(e)
  }

  /**
   * The try block of `validate`: the three checks in order, the first
   * failing one ending the chain with its violation.
   */
  function CheckChain(probes: Probes): (r: ChainResult)
    ensures 1 <= |r.ran| <= 3 && r.ran == AllStages[..|r.ran|]
    ensures forall k :: 0 <= k < |r.ran| - 1 ==> StageOutcome(probes, r.ran[k]).Passed?
    ensures r.outcome == Completed(None) <==>
      (forall s :: StageOutcome(probes, s).Passed?)
    ensures r.outcome == Completed(None) ==> r.ran == AllStages
    ensures r.outcome != Completed(None) ==>
      StageOutcome(probes, r.ran[|r.ran| - 1]).Threw? &&
      r.outcome == ViolationFor(StageOutcome(probes, r.ran[|r.ran| - 1]).exception)
  {
    if probes.urlContent.Threw? then
      assert !StageOutcome(probes, UrlContent).Passed?;
      ChainResult(ViolationFor(probes.urlContent.exception), [UrlContent])
    else if probes.xmlCheck.Threw? then
      assert !StageOutcome(probes, XmlCheck).Passed?;
      ChainResult(ViolationFor(probes.xmlCheck.exception), [UrlContent, XmlCheck])
    else if probes.webservice.Threw? then
      assert !StageOutcome(probes, Webservice).Passed?;
      ChainResult(ViolationFor(probes.webservice.exception), AllStages)
    else
      AllStagesPassed(probes);
      ChainResult(Completed(None), AllStages)
  }

  lemma AllStagesPassed(probes: Probes)
    requires probes.urlContent.Passed? && probes.xmlCheck.Passed? && probes.webservice.Passed?
    ensures forall s :: StageOutcome(probes, s).Passed?
  {
  }

  /** `validate`: no check for a value other than a Magento step, none when the cache holds `true`. */
  function ValidateSpec(cache: map<string, bool>, value: ValidatedValue, key: string, env: Environment): (r: ChainResult)
    ensures r.ran == [] <==> value.OtherValue? || (key in cache && cache[key])
    ensures r.ran == [] ==> r.outcome == Completed(None)
    ensures value.MagentoItemStep? && !(key in cache && cache[key]) ==> r == CheckChain(env(value.parameters))
  {
    if value.OtherValue? then ChainResult(Completed(None), [])
    else if key in cache && cache[key] then ChainResult(Completed(None), [])
    else CheckChain(env(value.parameters))
  }

  /** The exceptions `areValidSoapCredentials` turns into `false`. */
  predicate HandledByCredentialCheck(e: CheckException)
  {
    e.NotReachableUrl? || e.InvalidSoapUrl? || e.InvalidCredential? || e.SoapCall?
  }

  /** The result of the uncached credential check after a failing step. */
  function FailedCheck(cache: map<string, bool>, key: string, e: CheckException, ran: seq<Stage>): CredentialResult
  {
    if HandledByCredentialCheck(e) then CredentialResult(Ok(false), cache[key := false], ran)
    else CredentialResult(Err(e), cache, ran)
  }

  /**
   * `areValidSoapCredentials`: the cached answer when there is one;
   * otherwise fetch the content and build the webservice (no XML check),
   * and cache the answer unless an unhandled exception escapes.
   */
  function AreValidSpec(cache: map<string, bool>, key: string, probes: Probes): (r: CredentialResult)
    ensures r.answer.Ok? <==> key in r.cache
    ensures r.answer.Ok? ==> r.cache[key] == r.answer.value
    ensures forall k :: k != key ==> (k in r.cache <==> k in cache)
    ensures forall k :: k != key && k in cache ==> r.cache[k] == cache[k]
    ensures key in cache ==> r.cache == cache && r.ran == []
  {
    if key in cache then CredentialResult(Ok(cache[key]), cache, [])
    else if probes.urlContent.Threw? then FailedCheck(cache, key, probes.urlContent.exception, [UrlContent])
    else if probes.webservice.Threw? then FailedCheck(cache, key, probes.webservice.exception, [UrlContent, Webservice])
    else CredentialResult(Ok(true), cache[key := true], [UrlContent, Webservice])
  }

  /** A value that is not a Magento step is never checked and never gets a violation. */
  lemma OtherValueUnchecked(cache: map<string, bool>, key: string, env: Environment)
    ensures ValidateSpec(cache, OtherValue, key, env) == ChainResult(Completed(None), [])
  {
  }

  /**
   * The uncached credential check answers `true` exactly when the content
   * fetch and the webservice both succeed, never runs the XML check,
   * answers `false` for every handled exception and lets any other escape.
   */
  lemma CredentialCheckAnswer(cache: map<string, bool>, key: string, probes: Probes)
    requires key !in cache
    ensures AreValidSpec(cache, key, probes).answer == Ok(true) <==>
      probes.urlContent.Passed? && probes.webservice.Passed?
    ensures XmlCheck !in AreValidSpec(cache, key, probes).ran
    ensures probes.urlContent.Threw? && HandledByCredentialCheck(probes.urlContent.exception) ==>
      AreValidSpec(cache, key, probes).answer == Ok(false)
    ensures probes.urlContent.Passed? && probes.webservice.Threw? && HandledByCredentialCheck(probes.webservice.exception) ==>
      AreValidSpec(cache, key, probes).answer == Ok(false)
    ensures AreValidSpec(cache, key, probes).answer.Ok? ==>
      AreValidSpec(cache, key, probes).cache == cache[key := AreValidSpec(cache, key, probes).answer.value]
    ensures probes.urlContent.Threw? && !HandledByCredentialCheck(probes.urlContent.exception) ==>
      AreValidSpec(cache, key, probes).answer == Err(probes.urlContent.exception)
    ensures probes.urlContent.Passed? && probes.webservice.Threw? && !HandledByCredentialCheck(probes.webservice.exception) ==>
      AreValidSpec(cache, key, probes).answer == Err(probes.webservice.exception)
    ensures AreValidSpec(cache, key, probes).answer.Err? ==> AreValidSpec(cache, key, probes).cache == cache
  {
  }

  /**
   * Once an answer is cached, later credential checks of that key return
   * it, run no check and leave the cache alone, whatever it is and however
   * the endpoint behaves by then.
   */
  lemma CachedAnswerIsFinal(cache: map<string, bool>, key: string, first: Probes, later: Probes)
    requires AreValidSpec(cache, key, first).answer.Ok?
    ensures AreValidSpec(AreValidSpec(cache, key, first).cache, key, later) ==
      CredentialResult(AreValidSpec(cache, key, first).answer, AreValidSpec(cache, key, first).cache, [])
  {
  }

  /** After a positive credential check, `validate` of that key runs no check and adds no violation. */
  lemma PositiveCheckSkipsValidate(cache: map<string, bool>, key: string, probes: Probes,
                                   parameters: ClientParameters, env: Environment)
    requires AreValidSpec(cache, key, probes).answer == Ok(true)
    ensures ValidateSpec(AreValidSpec(cache, key, probes).cache, MagentoItemStep(parameters), key, env) ==
      ChainResult(Completed(None), [])
  {
  }

  /** After a negative credential check, `validate` of that key runs the whole chain again. */
  lemma NegativeCheckRerunsValidate(cache: map<string, bool>, key: string, probes: Probes,
                                    parameters: ClientParameters, env: Environment)
    requires AreValidSpec(cache, key, probes).answer == Ok(false)
    ensures ValidateSpec(AreValidSpec(cache, key, probes).cache, MagentoItemStep(parameters), key, env) ==
      CheckChain(env(parameters))
  {
  }

  class CredentialsValidator {
    // The cached answers of the credential check, by parameter key.
    var valid: map<string, bool>

    constructor ()
      ensures valid == map[]
    {
      valid := map[];
    }

    /**
     * `validate`: unless skipped, run the checks in order and turn the
     * first failure into a violation; the cache is read, never written.
     */
    method Validate(value: ValidatedValue, key: string, env: Environment) returns (outcome: ValidateOutcome, ran: seq<Stage>)
      ensures ChainResult(outcome, ran) == ValidateSpec(valid, value, key, env)
    {
      if value.OtherValue? {
        return Completed(None), [];
      }
      if key in valid && valid[key] {
        return Completed(None), [];
      }
      var probes := env(value.parameters);
      ran := [UrlContent];
      if probes.urlContent.Threw? {
        return ViolationFor(probes.urlContent.exception), ran;
      }
      ran := ran + [XmlCheck];
      if probes.xmlCheck.Threw? {
        return ViolationFor(probes.xmlCheck.exception), ran;
      }
      ran := ran + [Webservice];
      if probes.webservice.Threw? {
        return ViolationFor(probes.webservice.exception), ran;
      }
      outcome := Completed(None);
    }

    /**
     * `areValidSoapCredentials`: answer from the cache when the key is
     * there; otherwise run the two checks and record the answer.
     */
    method AreValidSoapCredentials(parameters: ClientParameters, key: string, env: Environment)
      returns (answer: Result<bool, CheckException>, ran: seq<Stage>)
      modifies this
      ensures CredentialResult(answer, valid, ran) == AreValidSpec(old(valid), key, env(parameters))
    {
      ran := [];
      if key !in valid {
        var probes := env(parameters);
        ran := [UrlContent];
        var failure: Option<CheckException> := None;
        if probes.urlContent.Threw? {
          failure := Some(probes.urlContent.exception);
        } else {
          ran := ran + [Webservice];
          if probes.webservice.Threw? {
            failure := Some(probes.webservice.exception);
          }
        }
        match failure {
          case None =>
            valid := valid[key := true];
          case Some(e) =>
            if HandledByCredentialCheck(e) {
              valid := valid[key := false];
            } else {
              return Err(e), ran;
            }
        }
      }
      answer := Ok(valid[key]);
    }
  }
}
