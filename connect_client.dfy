/** The fetch of certificates and profiles from App Store Connect, with its
    fall-back from standard to in-house mode. The Spaceship SDK is an oracle:
    whether Token.create raises, and what Certificate.all and Profile.all
    answer, are functions of the token and of the attempt number. */
module Connect {
  import opened Wrappers
  import CsaConfig
  import RecordNormalizer

  /** A token as Token.create builds it from its keyword arguments. */
  datatype Token = Token(
    keyId: Option<string>, issuerId: Option<string>,
    filepath: Option<string>, key: Option<string>, inHouse: bool)

  /** A StandardError raised by the SDK. */
  datatype ApiError = ApiError(message: string)

  /** What the service answers on attempt 0 (the first) and attempt 1 (the retry). */
  datatype Service = Service(
    tokenError: (Token, nat) -> Option<ApiError>,
    certificates: (Token, nat) -> Result<seq<RecordNormalizer.Record>, ApiError>,
    profiles: (Token, nat) -> Result<seq<RecordNormalizer.Record>, ApiError>)

  /** The pair `[certificates, profiles]` fetch_for_mode returns. */
  datatype Assets = Assets(certificates: seq<RecordNormalizer.Record>, profiles: seq<RecordNormalizer.Record>)

  /** `included_assets.nil? || included_assets.include?(kind)`. */
  predicate Wants(includedAssets: Option<seq<string>>, kind: string) {
    includedAssets.None? || kind in includedAssets.value
  }

  /** The token fetch_for_mode asks for: the configured credentials and the mode. */
  function TokenFor(config: CsaConfig.Config, inHouse: bool): (t: Token)
    ensures t.inHouse == inHouse
    ensures t.keyId == config.apiKeyId && t.issuerId == config.apiIssuerId
    ensures t.filepath == config.apiKeyFile && t.key == config.apiKeyContent
  {
    Token(config.apiKeyId, config.apiIssuerId, config.apiKeyFile, config.apiKeyContent, inHouse)
  }

  /** fetch_for_mode as a value: the assets it returns or the error it raises.
      A kind is listed with the new token exactly when it is wanted, and is
      `[]` otherwise; any raise of the SDK ends the attempt. */
  function ModeOutcome(service: Service, config: CsaConfig.Config, inHouse: bool,
                       includedAssets: Option<seq<string>>, attempt: nat): (r: Result<Assets, ApiError>)
    ensures r.Success? ==> service.tokenError(TokenFor(config, inHouse), attempt).None?
    ensures r.Success? && Wants(includedAssets, "certificates") ==>
      service.certificates(TokenFor(config, inHouse), attempt) == Success(r.value.certificates)
    ensures r.Success? && !Wants(includedAssets, "certificates") ==> r.value.certificates == []
    ensures r.Success? && Wants(includedAssets, "profiles") ==>
      service.profiles(TokenFor(config, inHouse), attempt) == Success(r.value.profiles)
    ensures r.Success? && !Wants(includedAssets, "profiles") ==> r.value.profiles == []
    ensures r.Failure? <==>
      service.tokenError(TokenFor(config, inHouse), attempt).Some?
      || (Wants(includedAssets, "certificates") && service.certificates(TokenFor(config, inHouse), attempt).Failure?)
      || (Wants(includedAssets, "profiles") && service.profiles(TokenFor(config, inHouse), attempt).Failure?)
  {
    var token := TokenFor(config, inHouse);
    match service.tokenError(token, attempt)
    case Some(e) => Failure(e)
    case None =>
      var certificates :- if Wants(includedAssets, "certificates") then service.certificates(token, attempt) else Success([]);
      var profiles :- if Wants(includedAssets, "profiles") then service.profiles(token, attempt) else Success([]);
      Success(Assets(certificates, profiles))
  }

  /** The SDK's global token after one attempt: replaced as soon as
      Token.create succeeds, even if a listing then raises. */
  function ModeToken(service: Service, config: CsaConfig.Config, inHouse: bool, attempt: nat,
                     before: Option<Token>): (t: Option<Token>)
    ensures service.tokenError(TokenFor(config, inHouse), attempt).None? ==> t == Some(TokenFor(config, inHouse))
    ensures service.tokenError(TokenFor(config, inHouse), attempt).Some? ==> t == before
  {
    if service.tokenError(TokenFor(config, inHouse), attempt).None? then Some(TokenFor(config, inHouse)) else before
  }

  /** The modes fetch tries, in order: the configured one, and in-house again
      once the first attempt raised. */
  function FetchModes(service: Service, config: CsaConfig.Config, includedAssets: Option<seq<string>>): seq<bool> {
    if ModeOutcome(service, config, config.inHouse, includedAssets, 0).Success? then [config.inHouse]
    else [config.inHouse, true]
  }

  /** fetch as a value: the first attempt's assets, else the retry's assets or error. */
  function FetchOutcome(service: Service, config: CsaConfig.Config, includedAssets: Option<seq<string>>): Result<Assets, ApiError> {
    var first := ModeOutcome(service, config, config.inHouse, includedAssets, 0);
    if first.Success? then first else ModeOutcome(service, config, true, includedAssets, 1)
  }

  /** The SDK's global token after fetch, from the token it held before. */
  function FetchToken(service: Service, config: CsaConfig.Config, includedAssets: Option<seq<string>>,
                      before: Option<Token>): Option<Token>
  {
    var afterFirst := ModeToken(service, config, config.inHouse, 0, before);
    if ModeOutcome(service, config, config.inHouse, includedAssets, 0).Success? then afterFirst
    else ModeToken(service, config, true, 1, afterFirst)
  }

  /** The tokens requested from the SDK for a sequence of modes. */
  function Requests(config: CsaConfig.Config, modes: seq<bool>): (r: seq<Token>)
    ensures |r| == |modes|
    ensures forall i :: 0 <= i < |modes| ==> r[i] == TokenFor(config, modes[i])
  {
    seq(|modes|, i requires 0 <= i < |modes| => TokenFor(config, modes[i]))
  }

  /** One or two attempts; the first in the configured mode, any retry in
      in-house mode, and a retry only after the first attempt raised. */
  lemma AttemptModes(service: Service, config: CsaConfig.Config, includedAssets: Option<seq<string>>)
    ensures 1 <= |FetchModes(service, config, includedAssets)| <= 2
    ensures FetchModes(service, config, includedAssets)[0] == config.inHouse
    ensures |FetchModes(service, config, includedAssets)| == 2 <==>
      ModeOutcome(service, config, config.inHouse, includedAssets, 0).Failure?
    ensures forall i :: 1 <= i < |FetchModes(service, config, includedAssets)| ==>
      FetchModes(service, config, includedAssets)[i]
  {
  }

  /** With in-house forced, no attempt is made in standard mode. */
  lemma ForcedInHouseNeverStandard(service: Service, config: CsaConfig.Config, includedAssets: Option<seq<string>>)
    requires config.inHouse
    ensures forall i :: 0 <= i < |FetchModes(service, config, includedAssets)| ==>
      FetchModes(service, config, includedAssets)[i]
  {
  }

  /** The result of fetch is the whole outcome of its last attempt, and every
      earlier attempt raised; so assets never mix two attempts, and an error
      that escapes is the retry's. */
  lemma OutcomeIsLastAttempt(service: Service, config: CsaConfig.Config, includedAssets: Option<seq<string>>)
    ensures var modes := FetchModes(service, config, includedAssets);
      FetchOutcome(service, config, includedAssets)
        == ModeOutcome(service, config, modes[|modes| - 1], includedAssets, |modes| - 1)
    ensures var modes := FetchModes(service, config, includedAssets);
      forall i :: 0 <= i < |modes| - 1 ==> ModeOutcome(service, config, modes[i], includedAssets, i).Failure?
  {
  }

  /** After a successful fetch the SDK holds the token of the attempt that
      produced the assets. */
  lemma SuccessLeavesItsToken(service: Service, config: CsaConfig.Config, includedAssets: Option<seq<string>>,
                              before: Option<Token>)
    requires FetchOutcome(service, config, includedAssets).Success?
    ensures var modes := FetchModes(service, config, includedAssets);
      FetchToken(service, config, includedAssets, before) == Some(TokenFor(config, modes[|modes| - 1]))
  {
  }

  /** Spaceship::ConnectAPI's module state: the global token, and (for the
      proofs) the tokens requested so far. */
  class Sdk {
    var token: Option<Token>
    ghost var requests: seq<Token>

    constructor ()
      ensures token == None && requests == []
    {
      token := None;
      requests := [];
    }
  }

  class ConnectClient {
    const config: CsaConfig.Config

    constructor (config: CsaConfig.Config)
      ensures this.config == config
    {
      this.config := config;
    }

    /** fetch: the configured mode first, then one in-house retry on any raise. */
    method Fetch(sdk: Sdk, service: Service, includedAssets: Option<seq<string>>) returns (r: Result<Assets, ApiError>)
      modifies sdk
      ensures r == FetchOutcome(service, config, includedAssets)
      ensures sdk.token == FetchToken(service, config, includedAssets, old(sdk.token))
      ensures sdk.requests == old(sdk.requests) + Requests(config, FetchModes(service, config, includedAssets))
    {
      var attempt := 0;
      var inHouse := config.inHouse;
      r := FetchForMode(sdk, service, inHouse, includedAssets, attempt);
      if r.Failure? {
        attempt := attempt + 1;
        inHouse := true;
        r := FetchForMode(sdk, service, inHouse, includedAssets, attempt);
      }
    }

    /** fetch_for_mode: set the global token, then list the wanted kinds with it. */
    method FetchForMode(sdk: Sdk, service: Service, inHouse: bool, includedAssets: Option<seq<string>>, attempt: nat)
      returns (r: Result<Assets, ApiError>)
      modifies sdk
      ensures r == ModeOutcome(service, config, inHouse, includedAssets, attempt)
      ensures sdk.token == ModeToken(service, config, inHouse, attempt, old(sdk.token))
      ensures sdk.requests == old(sdk.requests) + [TokenFor(config, inHouse)]
    {
      var token := TokenFor(config, inHouse);
      sdk.requests := sdk.requests + [token];
      var error := service.tokenError(token, attempt);
      if error.Some? {
        return Failure(error.value);
      }
      sdk.token := Some(token);
      var certificates := [];
      if Wants(includedAssets, "certificates") {
        var listed := service.certificates(sdk.token.value, attempt);
        if listed.Failure? {
          return Failure(listed.error);
        }
        certificates := listed.value;
      }
      var profiles := [];
      if Wants(includedAssets, "profiles") {
        var listed := service.profiles(sdk.token.value, attempt);
        if listed.Failure? {
          return Failure(listed.error);
        }
        profiles := listed.value;
      }
      r := Success(Assets(certificates, profiles));
    }
  }
}
