/**
 * The reachability check of a Magento configuration, as its behaviour is
 * pinned down case by case: probe the SOAP URL over HTTP, require an XML
 * response, create the SOAP client, log in. The first stage that fails
 * decides the single violation, and no later stage is attempted.
 */
module MagentoReachableValidator {
  import opened Common

  /** The configuration fields the check reads; the HTTP credentials may be absent. */
  datatype Configuration = Configuration(
    soapUrl: string, soapUsername: string, soapApiKey: string,
    httpLogin: Option<string>, httpPassword: Option<string>)

  /** How the HTTP probe of the SOAP URL ends: a response, a connection failure, or an error status. */
  datatype ProbeOutcome =
    | Responded(isXml: bool)
    | CurlFault(message: string)
    | BadResponseFault(message: string)

  /** The behaviour of every stage, whether or not the check gets that far. */
  datatype StageOutcomes = StageOutcomes(probe: ProbeOutcome, clientCreation: Outcome<SoapFault>, login: Outcome<SoapFault>)

  datatype Stage = Probe | ContentType | ClientCreation | Login

  const StageOrder := [Probe, ContentType, ClientCreation, Login]

  const ViolationLocus := "MagentoConfiguration"
  const KeyPrefix := "pim_magento_connector.export.validator."
  const UrlNotReachable := KeyPrefix + "url_not_reachable"
  const SoapUrlNotValid := KeyPrefix + "soap_url_not_valid"
  const XmlNotValid := KeyPrefix + "xml_not_valid"
  const UndefinedException := KeyPrefix + "undefined_exception"
  const AccessDenied := KeyPrefix + "access_denied"

  const NotXmlMessage := "Content type is not XML"
  const ExternalEntityFault := "failed to load external entity"
  const AccessDeniedFault := "access denied"

  /** A violation: where it is attached, its message key, its message parameters and the configuration details shown with it. */
  datatype Violation = Violation(path: string, key: string, parameters: seq<string>, details: map<string, Option<string>>)

  /** The violation raised, if any, and the stages attempted in order. */
  datatype Reachability = Reachability(violation: Option<Violation>, reached: seq<Stage>)

  // The detail tables attached to each kind of violation; their keys are
  // spelled differently from one kind to the next.

  function ProbeDetails(c: Configuration): map<string, Option<string>>
  {
    map["Soap URL" := Some(c.soapUrl), "HTTP login" := c.httpLogin, "HTTP password" := c.httpPassword]
  }

  function UrlDetails(c: Configuration): map<string, Option<string>>
  {
    map["Soap URL" := Some(c.soapUrl)]
  }

  function CredentialDetails(c: Configuration): map<string, Option<string>>
  {
    map["SOAP username" := Some(c.soapUsername), "SOAP API key" := Some(c.soapApiKey)]
  }

  function FullDetails(c: Configuration): map<string, Option<string>>
  {
    map["SOAP username" := Some(c.soapUsername), "SOAP API key" := Some(c.soapApiKey),
        "SOAP URL" := Some(c.soapUrl), "HTTP login" := c.httpLogin, "HTTP password" := c.httpPassword]
  }

  function At(key: string, message: string, details: map<string, Option<string>>): Violation
  {
    Violation(ViolationLocus, key, [message], details)
  }

  /** The message of the fault a stage ended with, if it ended with one. */
  function FaultMessage(o: StageOutcomes, s: Stage): Option<string>
  {
    match s
    case Probe => (match o.probe
      case CurlFault(m) => Some(m)
      case BadResponseFault(m) => Some(m)
      case Responded(_) => None)
    case ContentType => if o.probe == Responded(false) then Some(NotXmlMessage) else None
    case ClientCreation => if o.clientCreation.Fail? then Some(o.clientCreation.error.message) else None
    case Login => if o.login.Fail? then Some(o.login.error.message) else None
  }

  /**
   * The reachability decision: the stages in order up to the first one
   * that fails, and the one violation that failure maps to.
   */
  function Reach(c: Configuration, o: StageOutcomes): (r: Reachability)
    ensures 1 <= |r.reached| <= 4 && r.reached == StageOrder[..|r.reached|]
    ensures forall k :: 0 <= k < |r.reached| - 1 ==> FaultMessage(o, r.reached[k]).None?
    ensures r.violation.None? <==> |r.reached| == 4 && FaultMessage(o, Login).None?
    ensures r.violation.Some? ==>
      && FaultMessage(o, r.reached[|r.reached| - 1]).Some?
      && r.violation.value.path == ViolationLocus
      && r.violation.value.parameters == [FaultMessage(o, r.reached[|r.reached| - 1]).value]
  {
    match o.probe
    case CurlFault(m) => Reachability(Some(At(UrlNotReachable, m, ProbeDetails(c))), [Probe])
    case BadResponseFault(m) => Reachability(Some(At(SoapUrlNotValid, m, UrlDetails(c))), [Probe])
    case Responded(isXml) =>
      if !isXml then
        Reachability(Some(At(XmlNotValid, NotXmlMessage, UrlDetails(c))), [Probe, ContentType])
      else
        match o.clientCreation
        case Fail(f) =>
          var v := if f.message == ExternalEntityFault then At(SoapUrlNotValid, f.message, UrlDetails(c))
                   else At(UndefinedException, f.message, FullDetails(c));
          Reachability(Some(v), [Probe, ContentType, ClientCreation])
        case Pass =>
          match o.login
          case Fail(f) =>
            var v := if f.message == AccessDeniedFault then At(AccessDenied, f.message, CredentialDetails(c))
                     else At(UndefinedException, f.message, FullDetails(c));
            Reachability(Some(v), StageOrder)
          case Pass => Reachability(None, StageOrder)
  }

  /** The SOAP client is created only after a probe that answered with XML, and login only after that creation succeeded. */
  lemma LaterStagesGuarded(c: Configuration, o: StageOutcomes)
    ensures ClientCreation in Reach(c, o).reached <==> o.probe == Responded(true)
    ensures Login in Reach(c, o).reached <==> o.probe == Responded(true) && o.clientCreation.Pass?
  {
    var r := Reach(c, o);
    assert r.reached == StageOrder[..|r.reached|];
  }

  /** The decision table: which message key each first failure yields. */
  lemma ViolationKeys(c: Configuration, o: StageOutcomes)
    ensures o.probe.CurlFault? ==> Reach(c, o).violation.value.key == UrlNotReachable
    ensures o.probe.BadResponseFault? ==> Reach(c, o).violation.value.key == SoapUrlNotValid
    ensures o.probe == Responded(false) ==>
      Reach(c, o).violation.value == At(XmlNotValid, NotXmlMessage, UrlDetails(c))
    ensures o.probe == Responded(true) && o.clientCreation.Fail? ==>
      Reach(c, o).violation.value.key ==
        (if o.clientCreation.error.message == ExternalEntityFault then SoapUrlNotValid else UndefinedException)
    ensures o.probe == Responded(true) && o.clientCreation.Pass? && o.login.Fail? ==>
      Reach(c, o).violation.value.key ==
        (if o.login.error.message == AccessDeniedFault then AccessDenied else UndefinedException)
    ensures o.probe == Responded(true) && o.clientCreation.Pass? && o.login.Pass? ==>
      Reach(c, o).violation.None?
  {
  }

  /** An undefined-exception violation always shows the full configuration details. */
  lemma UndefinedShowsEverything(c: Configuration, o: StageOutcomes)
    requires Reach(c, o).violation.Some? && Reach(c, o).violation.value.key == UndefinedException
    ensures Reach(c, o).violation.value.details == FullDetails(c)
    ensures Reach(c, o).violation.value.details.Keys ==
      {"SOAP username", "SOAP API key", "SOAP URL", "HTTP login", "HTTP password"}
  {
    var r := Reach(c, o);
    assert UndefinedException != UrlNotReachable && UndefinedException != SoapUrlNotValid;
    assert UndefinedException != XmlNotValid && UndefinedException != AccessDenied;
  }
}
