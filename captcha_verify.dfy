/** The `captcha-verify` operation: checks a client's captcha response with
    the provider its configuration and response agree on, records the
    verification in `db-captcha`, fails when the provider said no, and
    publishes an analytics event otherwise. The answers of the database, the
    remote operations, the secret store and serialization are inputs; the
    calls made and rows written are returned as an effect log, in order. */
module CaptchaVerify {
  import opened Common
  import opened Sqlx

  /** The hCaptcha part of a configuration, passed on unchanged. */
  datatype HcaptchaConfig = HcaptchaConfig(settings: string)

  /** A domain a Turnstile configuration accepts, with its secret key. */
  datatype Domain = Domain(domain: string, secretKey: string)

  datatype TurnstileConfig = TurnstileConfig(domains: seq<Domain>)

  datatype CaptchaConfig = CaptchaConfig(
    hcaptcha: Option<HcaptchaConfig>,
    turnstile: Option<TurnstileConfig>,
    requestsBeforeReverify: int,
    verificationTtl: int)

  /** The client's answer, tagged with the provider it came from. */
  datatype ClientResponseKind = HcaptchaResponse(response: string) | TurnstileResponse(response: string)

  datatype ClientResponse = ClientResponse(kind: Option<ClientResponseKind>)

  datatype Request = Request(
    captchaConfig: Option<CaptchaConfig>,
    clientResponse: Option<ClientResponse>,
    topic: map<string, string>,
    userId: Option<Uuid>,
    namespaceId: Option<Uuid>,
    remoteAddress: string,
    originHost: Option<string>)

  /** The answers of everything the handler calls, in the order it calls them,
      and the values it draws (the new verification id, `ctx.ts()`). */
  datatype Environment = Environment(
    crdb: GlobalResult<Connection>,
    topicValue: GlobalResult<string>,
    topicStr: GlobalResult<string>,
    hcaptchaSiteKey: GlobalResult<string>,
    hcaptchaSuccess: GlobalResult<bool>,
    rivetGameSecret: GlobalResult<string>,
    turnstileSuccess: GlobalResult<bool>,
    insert: Result<nat, DriverError>,
    publish: GlobalResult<()>,
    verificationId: Uuid,
    ts: int)

  datatype Provider = Hcaptcha | Turnstile

  /** A row of `captcha_verifications`. */
  datatype VerificationRow = VerificationRow(
    verificationId: Uuid,
    topic: string,
    topicStr: string,
    remoteAddress: string,
    completeTs: int,
    expireTs: int,
    provider: Provider,
    success: bool,
    userId: Option<Uuid>,
    namespaceId: Option<Uuid>)

  datatype AnalyticsEvent = AnalyticsEvent(
    name: string,
    userId: Option<Uuid>,
    namespaceId: Option<Uuid>,
    topic: map<string, string>,
    requestsBeforeReverify: int,
    verificationTtl: int,
    hasHcaptcha: bool,
    hasTurnstile: bool,
    clientResponseKind: string)

  /** What the handler does to the outside world, in order. */
  datatype Effect =
    | HcaptchaConfigGet(config: HcaptchaConfig)
    | HcaptchaVerify(clientResponse: string, siteKey: string, remoteAddress: string)
    | ReadSecret(path: seq<string>)
    | TurnstileVerify(clientResponse: string, remoteAddress: string, secretKey: string)
    | InsertVerification(row: VerificationRow)
    | PublishEvent(event: AnalyticsEvent)

  /** A call to a provider's verification. */
  predicate IsVerifyCall(e: Effect)
  {
    e.HcaptchaVerify? || e.TurnstileVerify?
  }

  // Branch selection

  /** The arm of the `match (config, response kind)` taken. */
  datatype Branch =
    | HcaptchaBranch(hcaptcha: HcaptchaConfig, response: string)
    | TurnstileBranch(turnstile: TurnstileConfig, response: string)

  const InvalidRequest := Internal("invalid request")

  /** hCaptcha when both the configuration has it and the response is one;
      otherwise Turnstile when both agree on it; anything else is an invalid
      request. */
  function SelectBranch(config: CaptchaConfig, kind: ClientResponseKind): (r: GlobalResult<Branch>)
    ensures (r.Ok? && r.value.HcaptchaBranch?) <==> (config.hcaptcha.Some? && kind.HcaptchaResponse?)
    ensures (r.Ok? && r.value.TurnstileBranch?) <==> (config.turnstile.Some? && kind.TurnstileResponse?)
    ensures r.Ok? ==> r.value.response == kind.response
    ensures r.Ok? && r.value.HcaptchaBranch? ==> config.hcaptcha == Some(r.value.hcaptcha)
    ensures r.Ok? && r.value.TurnstileBranch? ==> config.turnstile == Some(r.value.turnstile)
    ensures r.Err? ==> r.error == InvalidRequest
  {
    match (config.hcaptcha, kind)
    case (Some(h), HcaptchaResponse(res)) => Ok(HcaptchaBranch(h, res))
    case _ =>
      match (config.turnstile, kind)
      case (Some(t), TurnstileResponse(res)) => Ok(TurnstileBranch(t, res))
      case _ => Err(InvalidRequest)
  }

  function ProviderOf(b: Branch): Provider
  {
    if b.HcaptchaBranch? then Hcaptcha else Turnstile
  }

  /** `response_kind_str`, reported in the analytics event. */
  function KindName(b: Branch): string
  {
    if b.HcaptchaBranch? then "hcaptcha" else "turnstile"
  }

  // Secret selection for Turnstile

  predicate EndsWith(s: string, suffix: string)
  {
    |suffix| <= |s| && s[|s| - |suffix|..] == suffix
  }

  /** The first-party host and its subdomains. */
  predicate IsRivetGameHost(host: string)
  {
    host == "rivet.game" || EndsWith(host, ".rivet.game")
  }

  /** A host is covered by a domain when it is that domain or a subdomain of it. */
  predicate DomainMatches(host: string, domain: string)
  {
    host == domain || EndsWith(host, "." + domain)
  }

  /** `find_map` over the configured domains: the secret of the first that
      covers the host. */
  function FindSecret(domains: seq<Domain>, host: string): (r: Option<string>)
    ensures r.Some? ==> exists i :: 0 <= i < |domains| && r.value == domains[i].secretKey
  {
    if domains == [] then None
    else if DomainMatches(host, domains[0].domain) then Some(domains[0].secretKey)
    else FindSecret(domains[1..], host)
  }

  const RivetGameSecretPath := ["turnstile", "rivet_game", "secret_key"]

  /** The secret the Turnstile branch verifies with: the environment's for the
      first-party host (whose read may fail), else the configured domains'
      (None when no domain covers the host). */
  function TurnstileSecret(host: string, domains: seq<Domain>, rivetGameSecret: GlobalResult<string>)
    : (r: GlobalResult<Option<string>>)
    ensures IsRivetGameHost(host) ==>
              (r.Ok? <==> rivetGameSecret.Ok?)
              && (r.Ok? ==> r.value == Some(rivetGameSecret.value))
              && (r.Err? ==> r.error == rivetGameSecret.error)
    ensures !IsRivetGameHost(host) ==> r == Ok(FindSecret(domains, host))
  {
    if IsRivetGameHost(host) then
      match rivetGameSecret
      case Ok(s) => Ok(Some(s))
      case Err(e) => Err(e)
    else Ok(FindSecret(domains, host))
  }

  /** FindSecret returns the secret of the first covering domain in list order. */
  lemma {:induction false} FindSecretFirstMatch(domains: seq<Domain>, host: string, i: nat)
    requires i < |domains| && DomainMatches(host, domains[i].domain)
    requires forall j :: 0 <= j < i ==> !DomainMatches(host, domains[j].domain)
    ensures FindSecret(domains, host) == Some(domains[i].secretKey)
  {
    if i > 0 {
      FindSecretFirstMatch(domains[1..], host, i - 1);
    }
  }

  /** FindSecret finds nothing exactly when no domain covers the host. */
  lemma {:induction false} FindSecretNone(domains: seq<Domain>, host: string)
    ensures FindSecret(domains, host).None? <==> forall i :: 0 <= i < |domains| ==> !DomainMatches(host, domains[i].domain)
  {
    if domains != [] {
      FindSecretNone(domains[1..], host);
      if FindSecret(domains, host).None? {
        forall i | 0 <= i < |domains| ensures !DomainMatches(host, domains[i].domain) {
          if i > 0 {
            assert domains[i] == domains[1..][i - 1];
          }
        }
      } else if !DomainMatches(host, domains[0].domain) {
        assert FindSecret(domains[1..], host).Some?;
        var k :| 0 <= k < |domains[1..]| && DomainMatches(host, domains[1..][k].domain);
        assert DomainMatches(host, domains[k + 1].domain);
      }
    }
  }

  /** Any secret FindSecret returns is that of a configured domain covering the host. */
  lemma {:induction false} FindSecretSound(domains: seq<Domain>, host: string)
    requires FindSecret(domains, host).Some?
    ensures exists i :: 0 <= i < |domains| && DomainMatches(host, domains[i].domain)
                        && FindSecret(domains, host) == Some(domains[i].secretKey)
  {
    if !DomainMatches(host, domains[0].domain) {
      FindSecretSound(domains[1..], host);
      var k :| 0 <= k < |domains[1..]| && DomainMatches(host, domains[1..][k].domain)
               && FindSecret(domains[1..], host) == Some(domains[1..][k].secretKey);
      assert domains[k + 1] == domains[1..][k];
    } else {
      assert DomainMatches(host, domains[0].domain);
    }
  }

  /** A host that ends with a domain's text without a dot before it is not
      covered by that domain. */
  lemma SuffixWithoutDotDoesNotMatch(host: string, domain: string)
    requires host != domain && EndsWith(host, domain) && |host| > |domain|
    requires host[|host| - |domain| - 1] != '.'
    ensures !DomainMatches(host, domain)
  {
  }

  /** The first-party host never consults the configured domains. */
  lemma RivetGameHostIgnoresDomains(host: string, d1: seq<Domain>, d2: seq<Domain>, secret: GlobalResult<string>)
    requires IsRivetGameHost(host)
    ensures TurnstileSecret(host, d1, secret) == TurnstileSecret(host, d2, secret)
  {
  }

  // The handler

  /** Everything before the branch is unwrapped or serialized successfully. */
  predicate Prepared(req: Request, env: Environment)
  {
    && env.crdb.Ok?
    && req.captchaConfig.Some?
    && req.clientResponse.Some?
    && req.clientResponse.value.kind.Some?
    && env.topicValue.Ok?
    && env.topicStr.Ok?
  }

  /** The first failure before the branch, in source order. */
  function PreludeError(req: Request, env: Environment): (e: GlobalError)
    requires !Prepared(req, env)
    ensures env.crdb.Err? ==> e == env.crdb.error
    ensures env.crdb.Ok? && req.captchaConfig.None? ==> e == Internal("ctx.captcha_config")
    ensures env.crdb.Ok? && req.captchaConfig.Some? && req.clientResponse.None? ==> e == Internal("ctx.client_response")
    ensures env.crdb.Ok? && req.captchaConfig.Some? && req.clientResponse.Some? && req.clientResponse.value.kind.None?
            ==> e == Internal("client_response.kind")
    ensures env.crdb.Ok? && req.captchaConfig.Some? && req.clientResponse.Some? && req.clientResponse.value.kind.Some?
            ==> (env.topicValue.Err? ==> e == env.topicValue.error)
                && (env.topicValue.Ok? ==> e == env.topicStr.error)
  {
    if env.crdb.Err? then env.crdb.error
    else if req.captchaConfig.None? then Internal("ctx.captcha_config")
    else if req.clientResponse.None? then Internal("ctx.client_response")
    else if req.clientResponse.value.kind.None? then Internal("client_response.kind")
    else if env.topicValue.Err? then env.topicValue.error
    else env.topicStr.error
  }

  function BranchOf(req: Request, env: Environment): GlobalResult<Branch>
    requires Prepared(req, env)
  {
    SelectBranch(req.captchaConfig.value, req.clientResponse.value.kind.value)
  }

  /** The Turnstile branch is taken. */
  predicate OnTurnstile(req: Request, env: Environment)
  {
    Prepared(req, env) && BranchOf(req, env).Ok? && BranchOf(req, env).value.TurnstileBranch?
  }

  /** The secret selected on the Turnstile branch for the request's origin. */
  function SelectedSecret(req: Request, env: Environment): GlobalResult<Option<string>>
    requires OnTurnstile(req, env) && req.originHost.Some?
  {
    TurnstileSecret(req.originHost.value, BranchOf(req, env).value.turnstile.domains, env.rivetGameSecret)
  }

  /** Every step up to the provider's answer succeeded on the branch taken. */
  predicate ProviderReached(req: Request, env: Environment)
  {
    && Prepared(req, env) && BranchOf(req, env).Ok?
    && (BranchOf(req, env).value.HcaptchaBranch? ==> env.hcaptchaSiteKey.Ok?)
    && (BranchOf(req, env).value.TurnstileBranch? ==>
          req.originHost.Some? && SelectedSecret(req, env).Ok? && SelectedSecret(req, env).value.Some?)
  }

  /** What the provider said on the branch taken. */
  function ProviderAnswer(b: Branch, env: Environment): GlobalResult<bool>
  {
    if b.HcaptchaBranch? then env.hcaptchaSuccess else env.turnstileSuccess
  }

  const NoOrigin := Internal("no origin")
  const OriginNotAllowed := BadRequest(CaptchaCaptchaOriginNotAllowed)
  const CaptchaFailed := BadRequest(CaptchaCaptchaFailed)

  /** The row both arms insert: completed now, expiring `verification_ttl`
      later, with the arm's provider and the provider's answer. */
  function RowOf(req: Request, env: Environment, provider: Provider, success: bool): (row: VerificationRow)
    requires Prepared(req, env)
    ensures row.verificationId == env.verificationId
    ensures row.topic == env.topicValue.value && row.topicStr == env.topicStr.value
    ensures row.remoteAddress == req.remoteAddress
    ensures row.completeTs == env.ts && row.expireTs == env.ts + req.captchaConfig.value.verificationTtl
    ensures row.provider == provider && row.success == success
    ensures row.userId == req.userId && row.namespaceId == req.namespaceId
  {
    VerificationRow(env.verificationId, env.topicValue.value, env.topicStr.value, req.remoteAddress,
                    env.ts, env.ts + req.captchaConfig.value.verificationTtl, provider, success,
                    req.userId, req.namespaceId)
  }

  /** The secret-store read made for the first-party host. */
  function SecretReads(host: string): seq<Effect>
  {
    if IsRivetGameHost(host) then [ReadSecret(RivetGameSecretPath)] else []
  }

  /** The row the handler writes, as the branch taken and the inputs fix it. */
  predicate RowFits(req: Request, env: Environment, row: VerificationRow)
  {
    && ProviderReached(req, env)
    && row.completeTs == env.ts
    && row.expireTs == env.ts + req.captchaConfig.value.verificationTtl
    && row.provider == ProviderOf(BranchOf(req, env).value)
    && ProviderAnswer(BranchOf(req, env).value, env) == Ok(row.success)
    && row.verificationId == env.verificationId
    && row.userId == req.userId && row.namespaceId == req.namespaceId
  }

  /** The answer an arm gives once the provider answered `success`: that
      answer when the row was inserted, else the insert's error. */
  function InsertAnswer(env: Environment, success: bool): GlobalResult<bool>
  {
    if env.insert.Ok? then Ok(success) else Err(Database(env.insert.error))
  }

  /** The effects and answer of the arm taken, as the inputs fix them: every
      step in source order, and the first failing `?` ends the arm with its
      collaborator's error. */
  function ArmOutcome(req: Request, env: Environment): (seq<Effect>, GlobalResult<bool>)
    requires Prepared(req, env) && BranchOf(req, env).Ok?
  {
    match BranchOf(req, env).value
    case HcaptchaBranch(h, response) => HcaptchaOutcome(req, env, h, response)
    case TurnstileBranch(t, response) => TurnstileOutcome(req, env, t, response)
  }

  function HcaptchaOutcome(req: Request, env: Environment, h: HcaptchaConfig, response: string)
    : (seq<Effect>, GlobalResult<bool>)
    requires Prepared(req, env)
  {
    match env.hcaptchaSiteKey
    case Err(e) => ([HcaptchaConfigGet(h)], Err(e))
    case Ok(siteKey) =>
      var verify := HcaptchaVerify(response, siteKey, req.remoteAddress);
      match env.hcaptchaSuccess
      case Err(e) => ([HcaptchaConfigGet(h), verify], Err(e))
      case Ok(success) =>
        ([HcaptchaConfigGet(h), verify, InsertVerification(RowOf(req, env, Hcaptcha, success))],
         InsertAnswer(env, success))
  }

  function TurnstileOutcome(req: Request, env: Environment, t: TurnstileConfig, response: string)
    : (seq<Effect>, GlobalResult<bool>)
    requires Prepared(req, env)
  {
    match req.originHost
    case None => ([], Err(NoOrigin))
    case Some(host) =>
      match TurnstileSecret(host, t.domains, env.rivetGameSecret)
      case Err(e) => (SecretReads(host), Err(e))
      case Ok(None) => (SecretReads(host), Err(OriginNotAllowed))
      case Ok(Some(key)) =>
        var verify := TurnstileVerify(response, req.remoteAddress, key);
        match env.turnstileSuccess
        case Err(e) => (SecretReads(host) + [verify], Err(e))
        case Ok(success) =>
          (SecretReads(host) + [verify, InsertVerification(RowOf(req, env, Turnstile, success))],
           InsertAnswer(env, success))
  }

  /** The analytics event for an answer, with its properties. */
  function EventOf(req: Request, env: Environment, success: bool): (event: AnalyticsEvent)
    requires Prepared(req, env) && BranchOf(req, env).Ok?
  {
    var config := req.captchaConfig.value;
    AnalyticsEvent(
      if success then "captcha.success" else "captcha.fail",
      req.userId, req.namespaceId, req.topic,
      config.requestsBeforeReverify, config.verificationTtl,
      config.hcaptcha.Some?, config.turnstile.Some?, KindName(BranchOf(req, env).value))
  }

  /** The handler's result once an arm answered: the arm's error, the failed
      check, or the outcome of publishing the event. */
  function Concluded(answer: GlobalResult<bool>, env: Environment): GlobalResult<()>
  {
    match answer
    case Err(e) => Err(e)
    case Ok(false) => Err(CaptchaFailed)
    case Ok(true) => if env.publish.Ok? then Ok(()) else Err(env.publish.error)
  }

  /** What an arm's log and answer promise the rest of the handler: no event
      yet; a row only last and right after a verification call; Turnstile
      verifies with the selected secret; the answer is the recorded one. */
  predicate ArmLog(req: Request, env: Environment, effects: seq<Effect>, answer: GlobalResult<bool>)
  {
    && Prepared(req, env) && BranchOf(req, env).Ok?
    && (forall j :: 0 <= j < |effects| ==> !effects[j].PublishEvent?)
    && (forall j :: 0 <= j < |effects| && effects[j].InsertVerification? ==>
          j == |effects| - 1 && j > 0 && IsVerifyCall(effects[j - 1]) && RowFits(req, env, effects[j].row))
    && (forall j :: 0 <= j < |effects| && effects[j].TurnstileVerify? ==>
          OnTurnstile(req, env) && req.originHost.Some? && SelectedSecret(req, env) == Ok(Some(effects[j].secretKey)))
    && (answer.Ok? ==>
          |effects| > 0 && effects[|effects| - 1].InsertVerification? && effects[|effects| - 1].row.success == answer.value)
    && (ProviderReached(req, env) && ProviderAnswer(BranchOf(req, env).value, env).Ok? && env.insert.Ok? ==>
          answer == ProviderAnswer(BranchOf(req, env).value, env))
    && (OnTurnstile(req, env) && req.originHost.None? ==> effects == [] && answer == Err(NoOrigin))
    && (OnTurnstile(req, env) && req.originHost.Some? && SelectedSecret(req, env) == Ok(None) ==>
          (forall j :: 0 <= j < |effects| ==> !IsVerifyCall(effects[j])) && answer == Err(OriginNotAllowed))
  }

  /** The hCaptcha arm outcome keeps the handler's promises. */
  lemma HcaptchaOutcomeLog(req: Request, env: Environment, h: HcaptchaConfig, response: string)
    requires Prepared(req, env) && BranchOf(req, env) == Ok(HcaptchaBranch(h, response))
    ensures ArmLog(req, env, ArmOutcome(req, env).0, ArmOutcome(req, env).1)
  {
    var (effects, answer) := HcaptchaOutcome(req, env, h, response);
    assert ArmOutcome(req, env) == (effects, answer);
    assert ProviderAnswer(BranchOf(req, env).value, env) == env.hcaptchaSuccess;
    assert !OnTurnstile(req, env);
  }

  /** The Turnstile arm outcome keeps the handler's promises. */
  lemma TurnstileOutcomeLog(req: Request, env: Environment, t: TurnstileConfig, response: string)
    requires Prepared(req, env) && BranchOf(req, env) == Ok(TurnstileBranch(t, response))
    ensures ArmLog(req, env, ArmOutcome(req, env).0, ArmOutcome(req, env).1)
  {
    assert ArmOutcome(req, env) == TurnstileOutcome(req, env, t, response);
    if req.originHost.Some? {
      var host := req.originHost.value;
      match TurnstileSecret(host, t.domains, env.rivetGameSecret)
      case Err(_) =>
      case Ok(None) =>
      case Ok(Some(key)) => TurnstileVerifiedLog(req, env, t, response, host, key);
    }
  }

  /** The Turnstile outcome once a secret is selected keeps the handler's promises. */
  lemma TurnstileVerifiedLog(req: Request, env: Environment, t: TurnstileConfig, response: string,
                             host: string, key: string)
    requires Prepared(req, env) && BranchOf(req, env) == Ok(TurnstileBranch(t, response))
    requires req.originHost == Some(host) && TurnstileSecret(host, t.domains, env.rivetGameSecret) == Ok(Some(key))
    ensures ArmLog(req, env, ArmOutcome(req, env).0, ArmOutcome(req, env).1)
  {
    assert ArmOutcome(req, env) == TurnstileOutcome(req, env, t, response);
    assert OnTurnstile(req, env) && SelectedSecret(req, env) == Ok(Some(key));
    assert ProviderReached(req, env);
    assert ProviderAnswer(BranchOf(req, env).value, env) == env.turnstileSuccess;
    assert ProviderOf(BranchOf(req, env).value) == Turnstile;
  }

  /** The hCaptcha arm: fetch the site key for the configuration, verify the
      response with it, and record the answer; returns the answer. */
  method HcaptchaArm(req: Request, env: Environment, h: HcaptchaConfig, response: string)
    returns (effects: seq<Effect>, res: GlobalResult<bool>)
    requires Prepared(req, env)
    ensures effects == HcaptchaOutcome(req, env, h, response).0
    ensures res == HcaptchaOutcome(req, env, h, response).1
  {
    effects := [HcaptchaConfigGet(h)];
    if env.hcaptchaSiteKey.Err? {
      return effects, Err(env.hcaptchaSiteKey.error);
    }
    effects := effects + [HcaptchaVerify(response, env.hcaptchaSiteKey.value, req.remoteAddress)];
    if env.hcaptchaSuccess.Err? {
      return effects, Err(env.hcaptchaSuccess.error);
    }
    var success := env.hcaptchaSuccess.value;
    effects := effects + [InsertVerification(RowOf(req, env, Hcaptcha, success))];
    if env.insert.Err? {
      return effects, Err(Database(env.insert.error));
    }
    res := Ok(success);
  }

  /** The Turnstile arm: require an origin host, select the secret for it
      (failing when none is allowed), verify the response with it, and
      record the answer; returns the answer. */
  method TurnstileArm(req: Request, env: Environment, t: TurnstileConfig, response: string)
    returns (effects: seq<Effect>, res: GlobalResult<bool>)
    requires Prepared(req, env)
    ensures effects == TurnstileOutcome(req, env, t, response).0
    ensures res == TurnstileOutcome(req, env, t, response).1
  {
    if req.originHost.None? {
      return [], Err(NoOrigin);
    }
    var host := req.originHost.value;
    effects := SecretReads(host);
    var secret := TurnstileSecret(host, t.domains, env.rivetGameSecret);
    if secret.Err? {
      return effects, Err(secret.error);
    }
    if secret.value.None? {
      return effects, Err(OriginNotAllowed);
    }
    effects := effects + [TurnstileVerify(response, req.remoteAddress, secret.value.value)];
    if env.turnstileSuccess.Err? {
      return effects, Err(env.turnstileSuccess.error);
    }
    var success := env.turnstileSuccess.value;
    effects := effects + [InsertVerification(RowOf(req, env, Turnstile, success))];
    if env.insert.Err? {
      return effects, Err(Database(env.insert.error));
    }
    res := Ok(success);
  }

  /** The end of the handler once an arm has answered: `assert_with!` on
      the answer, then the analytics event. */
  method Conclude(req: Request, env: Environment, armEffects: seq<Effect>, answer: GlobalResult<bool>)
    returns (effects: seq<Effect>, r: GlobalResult<()>)
    requires ArmLog(req, env, armEffects, answer)
    // The arm's effects, in order, then the event exactly when the answer was yes.
    ensures effects == armEffects + (if answer == Ok(true) then [PublishEvent(EventOf(req, env, true))] else [])
    ensures r == Concluded(answer, env)
    // A yes with the row written and the event published is a success.
    ensures (ProviderReached(req, env) && ProviderAnswer(BranchOf(req, env).value, env) == Ok(true)
             && env.insert.Ok? && env.publish.Ok?) ==> r == Ok(())
    // Turnstile without an origin, or with one no domain or first-party rule covers:
    // it fails before any verification call.
    ensures (OnTurnstile(req, env) && req.originHost.None?) ==> effects == [] && r == Err(NoOrigin)
    ensures (OnTurnstile(req, env) && req.originHost.Some? && SelectedSecret(req, env) == Ok(None))
            ==> (forall e :: e in effects ==> !IsVerifyCall(e)) && r == Err(OriginNotAllowed)
    // A Turnstile verification uses the selected secret.
    ensures forall e :: e in effects && e.TurnstileVerify? ==>
              OnTurnstile(req, env) && req.originHost.Some? && SelectedSecret(req, env) == Ok(Some(e.secretKey))
    // The recorded row.
    ensures forall e :: e in effects && e.InsertVerification? ==>
              && ProviderReached(req, env)
              && e.row.completeTs == env.ts
              && e.row.expireTs == env.ts + req.captchaConfig.value.verificationTtl
              && e.row.provider == ProviderOf(BranchOf(req, env).value)
              && ProviderAnswer(BranchOf(req, env).value, env) == Ok(e.row.success)
              && e.row.verificationId == env.verificationId
              && e.row.userId == req.userId && e.row.namespaceId == req.namespaceId
    // The row is written right after the provider was asked.
    ensures forall j :: 0 <= j < |effects| && effects[j].InsertVerification? ==>
              j > 0 && IsVerifyCall(effects[j - 1])
    // A failed check is recorded with success = false, then the handler fails, with no event.
    ensures (ProviderReached(req, env) && ProviderAnswer(BranchOf(req, env).value, env) == Ok(false) && env.insert.Ok?)
            ==> && r == Err(CaptchaFailed)
                && |effects| > 0 && effects[|effects| - 1].InsertVerification?
                && !effects[|effects| - 1].row.success
    // Any event comes last, right after a successful row, and is a success.
    ensures forall j :: 0 <= j < |effects| && effects[j].PublishEvent? ==>
              && j == |effects| - 1 && j > 0
              && effects[j - 1].InsertVerification? && effects[j - 1].row.success
              && effects[j].event.name == "captcha.success"
    // Success means the provider said yes, the row was written and the event published.
    ensures r.Ok? ==> |effects| >= 2 && effects[|effects| - 1].PublishEvent?
                      && effects[|effects| - 2].InsertVerification? && effects[|effects| - 2].row.success
  {
    effects := armEffects;
    forall e | e in armEffects && e.InsertVerification?
      ensures RowFits(req, env, e.row)
    {
      var j :| 0 <= j < |armEffects| && armEffects[j] == e;
    }
    if answer.Err? {
      return effects, Err(answer.error);
    }
    var success := answer.value;
    if !success {
      return effects, Err(CaptchaFailed);
    }
    var event := EventOf(req, env, success);
    assert event.name == "captcha.success";
    effects := effects + [PublishEvent(event)];
    assert forall j :: 0 <= j < |armEffects| ==> effects[j] == armEffects[j];
    assert effects[|armEffects|] == PublishEvent(event);
    if env.publish.Err? {
      return effects, Err(env.publish.error);
    }
    r := Ok(());
  }

  /** The handler. An inserted row carries `expire_ts = ts + verification_ttl`
      and the provider of the branch taken; a failed check is still recorded
      before the handler fails; the event is published only after the check
      passed. */
  method Handle(req: Request, env: Environment) returns (effects: seq<Effect>, r: GlobalResult<()>)
    // Failures before the branch: nothing is called, the first error is returned.
    ensures !Prepared(req, env) ==> effects == [] && r == Err(PreludeError(req, env))
    // No agreeing provider: nothing is called.
    ensures Prepared(req, env) && BranchOf(req, env).Err? ==> effects == [] && r == Err(InvalidRequest)
    // Otherwise the arm's effects in order, then the event exactly when the answer was yes;
    // each collaborator's error is passed through.
    ensures Prepared(req, env) && BranchOf(req, env).Ok? ==>
              var (armEffects, answer) := ArmOutcome(req, env);
              && effects == armEffects + (if answer == Ok(true) then [PublishEvent(EventOf(req, env, true))] else [])
              && r == Concluded(answer, env)
    // A yes with the row written and the event published is a success.
    ensures (ProviderReached(req, env) && ProviderAnswer(BranchOf(req, env).value, env) == Ok(true)
             && env.insert.Ok? && env.publish.Ok?) ==> r == Ok(())
    // Turnstile without an origin, or with one no domain or first-party rule covers:
    // it fails before any verification call.
    ensures (OnTurnstile(req, env) && req.originHost.None?) ==> effects == [] && r == Err(NoOrigin)
    ensures (OnTurnstile(req, env) && req.originHost.Some? && SelectedSecret(req, env) == Ok(None))
            ==> (forall e :: e in effects ==> !IsVerifyCall(e)) && r == Err(OriginNotAllowed)
    // A Turnstile verification uses the selected secret.
    ensures forall e :: e in effects && e.TurnstileVerify? ==>
              OnTurnstile(req, env) && req.originHost.Some? && SelectedSecret(req, env) == Ok(Some(e.secretKey))
    // The recorded row.
    ensures forall e :: e in effects && e.InsertVerification? ==>
              && ProviderReached(req, env)
              && e.row.completeTs == env.ts
              && e.row.expireTs == env.ts + req.captchaConfig.value.verificationTtl
              && e.row.provider == ProviderOf(BranchOf(req, env).value)
              && ProviderAnswer(BranchOf(req, env).value, env) == Ok(e.row.success)
              && e.row.verificationId == env.verificationId
              && e.row.userId == req.userId && e.row.namespaceId == req.namespaceId
    // The row is written right after the provider was asked.
    ensures forall j :: 0 <= j < |effects| && effects[j].InsertVerification? ==>
              j > 0 && IsVerifyCall(effects[j - 1])
    // A failed check is recorded with success = false, then the handler fails, with no event.
    ensures (ProviderReached(req, env) && ProviderAnswer(BranchOf(req, env).value, env) == Ok(false) && env.insert.Ok?)
            ==> && r == Err(CaptchaFailed)
                && |effects| > 0 && effects[|effects| - 1].InsertVerification?
                && !effects[|effects| - 1].row.success
    // Any event comes last, right after a successful row, and is a success.
    ensures forall j :: 0 <= j < |effects| && effects[j].PublishEvent? ==>
              && j == |effects| - 1 && j > 0
              && effects[j - 1].InsertVerification? && effects[j - 1].row.success
              && effects[j].event.name == "captcha.success"
    // Success means the provider said yes, the row was written and the event published.
    ensures r.Ok? ==> |effects| >= 2 && effects[|effects| - 1].PublishEvent?
                      && effects[|effects| - 2].InsertVerification? && effects[|effects| - 2].row.success
  {
    if !Prepared(req, env) {
      return [], Err(PreludeError(req, env));
    }
    var branch := SelectBranch(req.captchaConfig.value, req.clientResponse.value.kind.value);
    if branch.Err? {
      return [], Err(branch.error);
    }
    var armEffects, answer;
    match branch.value {
      case HcaptchaBranch(h, response) =>
        armEffects, answer := HcaptchaArm(req, env, h, response);
        HcaptchaOutcomeLog(req, env, h, response);
      case TurnstileBranch(t, response) =>
        armEffects, answer := TurnstileArm(req, env, t, response);
        TurnstileOutcomeLog(req, env, t, response);
    }
    effects, r := Conclude(req, env, armEffects, answer);
  }
}
