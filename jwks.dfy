/** The admission check in front of the upload route: the bearer token's
    unverified claims name the issuing Charm server and the user; the issuer's
    host must be on the allow-list when there is one; and only then is the
    token's signature checked against the issuer's published keys.  The claim
    parser, the URL parser and the validator are library calls, given here as
    functions of their inputs. */
module JwksMiddleware {
  import opened Wrappers
  import opened Http

  /** The registered claims of a token, read without checking its signature. */
  datatype Claims = Claims(issuer: string, subject: string)

  /** A parsed URL: `text` is what its `String` method gives back, `host` its
      `Host` field (a host name with an optional `:port`). */
  datatype Url = Url(text: string, host: string)

  datatype Algorithm = EdDSA

  /** The arguments the token validator is built with: the issuer whose key
      set is fetched, the signature algorithm, the expected issuer and the
      expected audience. */
  datatype ValidatorConfig = ValidatorConfig(keyIssuer: Url, algorithm: Algorithm, expectedIssuer: string, audience: seq<string>)

  /** Building the validator and running the token check on the request:
      building fails, the token is accepted, or the check answers `code`. */
  datatype Verdict = BuildFailed | Accepted | Rejected(code: ErrorStatus)

  /** The library calls the middleware makes.  `validate` sees the validator's
      arguments and the request's `Authorization` header. */
  datatype Oracles = Oracles(
    parseClaims: string -> Option<Claims>,
    parseUrl: string -> Option<Url>,
    validate: (ValidatorConfig, string) -> Verdict)

  /** `len("Bearer ")`. */
  const BearerLength := 7

  /** `getClaims`: a header no longer than `"Bearer "` has no token; otherwise
      the first seven characters are dropped, whatever they are, and the rest
      is parsed. */
  function GetClaims(auth: string, parse: string -> Option<Claims>): (r: Option<Claims>)
    ensures |auth| <= BearerLength ==> r == None
    ensures |auth| > BearerLength ==> r == parse(auth[BearerLength..])
  {
    if |auth| <= BearerLength then None else parse(auth[BearerLength..])
  }

  /** The client's header `"bearer " + token` gives the parser exactly the token. */
  lemma BearerRoundTrip(token: string, parse: string -> Option<Claims>)
    requires token != ""
    ensures GetClaims("bearer " + token, parse) == parse(token)
  {
    assert ("bearer " + token)[BearerLength..] == token;
  }

  /** What the seven characters in front of the token are does not matter. */
  lemma PrefixNotInspected(p: string, q: string, token: string, parse: string -> Option<Claims>)
    requires |p| == BearerLength && |q| == BearerLength
    ensures GetClaims(p + token, parse) == GetClaims(q + token, parse)
  {
    assert (p + token)[BearerLength..] == token;
    assert (q + token)[BearerLength..] == token;
  }

  // ---------------------------------------------------------------------
  // Host names

  /** The index of the last `:` in `s`, or `-1` when there is none. */
  function LastColon(s: string): (i: int)
    ensures -1 <= i < |s|
    ensures i >= 0 ==> s[i] == ':' && ':' !in s[i + 1..]
    ensures i == -1 ==> ':' !in s
    decreases |s|
  {
    if s == [] then -1
    else if s[|s| - 1] == ':' then |s| - 1
    else
      var i := LastColon(s[..|s| - 1]);
      assert s == s[..|s| - 1] + [s[|s| - 1]];
      i
  }

  predicate AllDigits(s: string)
  {
    forall i :: 0 <= i < |s| ==> '0' <= s[i] <= '9'
  }

  /** `Hostname` of a URL with host field `host`: a trailing `:port` whose port
      is all digits is removed, and so are the brackets around an IPv6
      literal. */
  function Hostname(host: string): string
  {
    var i := LastColon(host);
    var h := if i >= 0 && AllDigits(host[i + 1..]) then host[..i] else host;
    if Bracketed(h) then h[1..|h| - 1] else h
  }

  predicate Bracketed(h: string)
  {
    |h| >= 2 && h[0] == '[' && h[|h| - 1] == ']'
  }

  /** A numeric port is dropped from a plain host name. */
  lemma HostnameDropsPort(name: string, port: string)
    requires ':' !in name && !Bracketed(name) && AllDigits(port)
    ensures Hostname(name + ":" + port) == name
  {
    var s := name + ":" + port;
    var i := LastColon(s);
    assert s[|name|] == ':';
    assert i == |name|;
    assert s[i + 1..] == port;
    assert s[..i] == name;
  }

  /** A plain host name without a port is its own host name. */
  lemma HostnameWithoutPort(name: string)
    requires ':' !in name && !Bracketed(name)
    ensures Hostname(name) == name
  {
  }

  /** The host name the tests' local Charm server issues tokens under. */
  lemma LocalIssuerHostname()
    ensures Hostname("localhost:35354") == "localhost"
  {
    assert "localhost:35354" == "localhost" + ":" + "35354";
    HostnameDropsPort("localhost", "35354");
  }

  // ---------------------------------------------------------------------
  // The decision

  /** The validator arguments for an issuer: its key set, EdDSA, the issuer's
      own text as the expected issuer and the audience `tavern`. */
  function ConfigFor(issuer: Url): ValidatorConfig
  {
    ValidatorConfig(issuer, EdDSA, issuer.text, ["tavern"])
  }

  /** The issuer passes the allow-list: the list is empty or names its host. */
  predicate IssuerAllowed(allowed: set<string>, issuer: Url)
  {
    allowed == {} || Hostname(issuer.host) in allowed
  }

  /** The token's claims and issuer parse and the issuer passes the
      allow-list: the validator gets built. */
  predicate ReachesValidator(auth: string, allowed: set<string>, o: Oracles)
  {
    && GetClaims(auth, o.parseClaims).Some?
    && o.parseUrl(GetClaims(auth, o.parseClaims).value.issuer).Some?
    && IssuerAllowed(allowed, o.parseUrl(GetClaims(auth, o.parseClaims).value.issuer).value)
  }

  /** The condition under which the request goes on to the upload handler,
      as one conjunction. */
  predicate Admitted(auth: string, allowed: set<string>, o: Oracles)
  {
    && ReachesValidator(auth, allowed, o)
    && GetClaims(auth, o.parseClaims).value.subject != ""
    && o.validate(ConfigFor(o.parseUrl(GetClaims(auth, o.parseClaims).value.issuer).value), auth) == Accepted
  }

  /** What the middleware does to the request's context: the first status it
      writes (`0` for none), the bodies and log lines it writes, the value it
      stores under `charm_id`, the arguments it builds the validator with (if
      it gets that far) and whether it aborts the request. */
  datatype Admission = Admission(
    status: nat,
    body: seq<Message>,
    log: seq<LogEvent>,
    charmId: Option<string>,
    validator: Option<ValidatorConfig>,
    aborts: bool)

  /** The JWKS middleware's effect on a request with header `auth`. */
  function Admit(auth: string, allowed: set<string>, o: Oracles): (r: Admission)
    // the request goes on exactly when every check passes
    ensures !r.aborts <==> Admitted(auth, allowed, o)
    ensures !r.aborts ==> r.status == 0 && r.body == []
    ensures r.aborts ==> 400 <= r.status < 600
    // an unreadable token or issuer stops everything with 401
    ensures GetClaims(auth, o.parseClaims).None? ==>
      r == Admission(401, [], [JwtParsingError], None, None, true)
    ensures GetClaims(auth, o.parseClaims).Some? && o.parseUrl(GetClaims(auth, o.parseClaims).value.issuer).None? ==>
      r == Admission(401, [], [IssuerNotFound], None, None, true)
    // the unchecked subject is stored once the token and issuer parse
    ensures r.charmId.Some? <==>
      GetClaims(auth, o.parseClaims).Some? && o.parseUrl(GetClaims(auth, o.parseClaims).value.issuer).Some?
    ensures r.charmId.Some? ==> r.charmId.value == GetClaims(auth, o.parseClaims).value.subject
    // an empty subject is answered with 401 and never goes on, but the later checks still run
    ensures r.charmId == Some("") ==> r.aborts && r.status == 401 && |r.log| > 0 && r.log[0] == InvalidCharmId
    // the validator is built only past the allow-list, always with the same arguments
    ensures r.validator.Some? <==> ReachesValidator(auth, allowed, o)
    ensures r.validator.Some? ==>
      r.validator.value == ConfigFor(o.parseUrl(GetClaims(auth, o.parseClaims).value.issuer).value)
    // an issuer missing from a non-empty allow-list is refused with 401 and the "cannot publish" body
    ensures r.charmId.Some? && r.validator.None? ==>
      allowed != {} && r.aborts && r.status == 401 && r.body == [CannotPublish]
    // a validator that rejects the token is logged as a failed validation and answered with
    // its own status, unless the empty subject's 401 was written first
    ensures r.validator.Some? && o.validate(r.validator.value, auth).Rejected? ==>
      r.aborts && r.body == [JwtInvalid] && |r.log| > 0 && r.log[|r.log| - 1] == JwtValidationFailed &&
      r.status == (if r.charmId == Some("") then 401 else o.validate(r.validator.value, auth).code)
    // a validator that cannot be built is logged as such and answered with 401
    ensures r.validator.Some? && o.validate(r.validator.value, auth).BuildFailed? ==>
      r.aborts && r.body == [] && r.status == 401 && |r.log| > 0 && r.log[|r.log| - 1] == ValidatorNotCreated
  {
    match GetClaims(auth, o.parseClaims)
    case None => Admission(401, [], [JwtParsingError], None, None, true)
    case Some(claims) =>
      match o.parseUrl(claims.issuer)
      case None => Admission(401, [], [IssuerNotFound], None, None, true)
      case Some(issuer) => AdmitParsed(auth, claims, issuer, allowed, o)
  }

  /** The checks that follow once the token's claims and its issuer have
      been read: the subject, the allow-list and the validator. */
  function AdmitParsed(auth: string, claims: Claims, issuer: Url, allowed: set<string>, o: Oracles): (r: Admission)
    ensures !r.aborts <==>
      claims.subject != "" && IssuerAllowed(allowed, issuer) && o.validate(ConfigFor(issuer), auth) == Accepted
    ensures !r.aborts ==> r.status == 0 && r.body == []
    ensures r.aborts ==> 400 <= r.status < 600
    ensures r.charmId == Some(claims.subject)
    ensures claims.subject == "" ==> r.aborts && r.status == 401 && |r.log| > 0 && r.log[0] == InvalidCharmId
    ensures r.validator.Some? <==> IssuerAllowed(allowed, issuer)
    ensures r.validator.Some? ==> r.validator.value == ConfigFor(issuer)
    ensures r.validator.None? ==> allowed != {} && r.aborts && r.status == 401 && r.body == [CannotPublish]
    ensures r.validator.None? ==> |r.log| > 0 && r.log[|r.log| - 1].IssuerNotAccepted?
    ensures r.validator.Some? && o.validate(ConfigFor(issuer), auth).Rejected? ==>
      r.aborts && r.body == [JwtInvalid] && |r.log| > 0 && r.log[|r.log| - 1] == JwtValidationFailed &&
      r.status == (if claims.subject == "" then 401 else o.validate(ConfigFor(issuer), auth).code)
    ensures r.validator.Some? && o.validate(ConfigFor(issuer), auth).BuildFailed? ==>
      r.aborts && r.body == [] && r.status == 401 && |r.log| > 0 && r.log[|r.log| - 1] == ValidatorNotCreated
  {
    var noSubject := claims.subject == "";
    var status0: nat := if noSubject then 401 else 0;
    var log0 := if noSubject then [InvalidCharmId] else [];
    var host := Hostname(issuer.host);
    if !IssuerAllowed(allowed, issuer) then
      Admission(WriteStatus(status0, 401), [CannotPublish], log0 + [IssuerNotAccepted(host)], Some(claims.subject), None, true)
    else
      var cfg := ConfigFor(issuer);
      match o.validate(cfg, auth)
      case BuildFailed =>
        Admission(WriteStatus(status0, 401), [], log0 + [ValidatorNotCreated], Some(claims.subject), Some(cfg), true)
      case Rejected(code) =>
        Admission(WriteStatus(status0, code), [JwtInvalid], log0 + [JwtValidationFailed], Some(claims.subject), Some(cfg), true)
      case Accepted =>
        Admission(status0, [], log0, Some(claims.subject), Some(cfg), noSubject)
  }

  /** With an empty allow-list every issuer that parses reaches the validator. */
  lemma EmptyAllowListRejectsNoIssuer(auth: string, o: Oracles)
    requires GetClaims(auth, o.parseClaims).Some?
    requires o.parseUrl(GetClaims(auth, o.parseClaims).value.issuer).Some?
    ensures Admit(auth, {}, o).validator.Some?
  {
  }

  /** The `JWKS` middleware on a gin context: the context changes as `Admit`
      says, and the result tells whether the next handler runs. */
  method Jwks(c: Context, allowed: set<string>, o: Oracles) returns (next: bool)
    modifies c
    ensures var a := Admit(c.request.authorization, allowed, o);
      && c.status == WriteStatus(old(c.status), a.status)
      && c.body == old(c.body) + a.body
      && c.log == old(c.log) + a.log
      && c.keys == (if a.charmId.Some? then old(c.keys)["charm_id" := Str(a.charmId.value)] else old(c.keys))
      && c.aborted == (old(c.aborted) || a.aborts)
    ensures next == !c.aborted
  {
    var auth := c.request.authorization;
    var claims := GetClaims(auth, o.parseClaims);
    if claims.None? {
      c.Log(JwtParsingError);
      c.AbortWithStatus(401);
      return false;
    }
    var issuer := o.parseUrl(claims.value.issuer);
    if issuer.None? {
      c.Log(IssuerNotFound);
      c.AbortWithStatus(401);
      return false;
    }
    next := CheckParsed(c, auth, claims.value, issuer.value, allowed, o);
  }

  /** The middleware from the subject check on, once the claims and the
      issuer have been read. */
  method CheckParsed(c: Context, auth: string, claims: Claims, issuer: Url, allowed: set<string>, o: Oracles)
    returns (next: bool)
    modifies c
    ensures var a := AdmitParsed(auth, claims, issuer, allowed, o);
      && c.status == WriteStatus(old(c.status), a.status)
      && c.body == old(c.body) + a.body
      && c.log == old(c.log) + a.log
      && c.keys == old(c.keys)["charm_id" := Str(claims.subject)]
      && c.aborted == (old(c.aborted) || a.aborts)
    ensures next == !c.aborted
  {
    ghost var log0 := c.log;
    ghost var logged := if claims.subject == "" then [InvalidCharmId] else [];
    if claims.subject == "" {
      c.Log(InvalidCharmId);
      c.AbortWithStatus(401);
    }
    assert c.log == log0 + logged;
    c.Set("charm_id", Str(claims.subject));
    if |allowed| > 0 {
      var host := Hostname(issuer.host);
      if host !in allowed {
        c.Log(IssuerNotAccepted(host));
        assert c.log == log0 + (logged + [IssuerNotAccepted(host)]);
        c.AbortWithMessage(401, CannotPublish);
        return false;
      }
    }
    var cfg := ConfigFor(issuer);
    var verdict := o.validate(cfg, auth);
    if verdict.BuildFailed? {
      c.Log(ValidatorNotCreated);
      assert c.log == log0 + (logged + [ValidatorNotCreated]);
      c.AbortWithStatus(401);
      return false;
    }
    // the token check writes its own error reply; `valid` is set only when it passes
    var valid := verdict.Accepted?;
    if !valid {
      c.Respond(verdict.code, Some(JwtInvalid));
    }
    if valid {
      next := !c.aborted;
    } else {
      c.Log(JwtValidationFailed);
      assert c.log == log0 + (logged + [JwtValidationFailed]);
      c.Abort();
      next := false;
    }
  }
}
