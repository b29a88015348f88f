/** The older identity middleware: the user's token is the second
    space-separated field of the `Authorization` header, its `sub` claim is
    read without checking the signature, and the Charm server's `/v1/id/<id>`
    endpoint is asked, with the same header, whether it knows the user.  The
    claim reader and the identity endpoint are given as functions of their
    inputs. */
module CharmAuthMiddleware {
  import opened Wrappers
  import opened Strings
  import opened Http

  /** What `charmIDFromRequest` comes to: a panic when the header has no
      second field, one of its two errors, or the identity. */
  datatype IdLookup = IndexOutOfRange | MissingUserKey | MissingCharmId | Found(id: string)

  /** `charmIDFromRequest` on the header `auth`; `subjectOf(token)` is the
      token's `sub` claim when the token parses and the claim is a string. */
  function CharmIdFromRequest(auth: string, subjectOf: string -> Option<string>): (r: IdLookup)
    // indexing the fields panics exactly when the header has no space
    ensures r == IndexOutOfRange <==> ' ' !in auth
    ensures r.Found? ==> r.id != ""
    // with a second field, the token is that field and only it
    ensures |SplitOn(auth, ' ')| >= 2 ==>
      var user := SplitOn(auth, ' ')[1];
      && (r == MissingUserKey <==> user == "")
      && (r.Found? <==> user != "" && subjectOf(user).Some? && subjectOf(user).value != "")
      && (r.Found? ==> Some(r.id) == subjectOf(user))
  {
    SplitManyIffSep(auth, ' ');
    var fields := SplitOn(auth, ' ');
    if |fields| < 2 then IndexOutOfRange
    else
      var user := fields[1];
      if user == "" then MissingUserKey
      else
        // the key function assigns `id` only when the claim is a string
        var id := if subjectOf(user).Some? then subjectOf(user).value else "";
        if id == "" then MissingCharmId else Found(id)
  }

  /** A header `<scheme> <token>`, possibly followed by more space-separated
      fields, is looked up by its token. */
  lemma CharmIdOfToken(scheme: string, token: string, tail: string, subjectOf: string -> Option<string>)
    requires ' ' !in scheme && ' ' !in token && (tail == "" || tail[0] == ' ')
    ensures CharmIdFromRequest(scheme + " " + token + tail, subjectOf) ==
      if token == "" then MissingUserKey
      else if subjectOf(token).None? || subjectOf(token).value == "" then MissingCharmId
      else Found(subjectOf(token).value)
  {
    var auth := scheme + " " + token + tail;
    assert auth == scheme + [' '] + (token + tail);
    SplitAround(scheme, token + tail, ' ');
    SplitWithoutSep(scheme, ' ');
    if tail == "" {
      assert token + tail == token;
      SplitWithoutSep(token, ' ');
    } else {
      assert token + tail == token + [' '] + tail[1..];
      SplitAround(token, tail[1..], ' ');
      SplitWithoutSep(token, ' ');
    }
    assert SplitOn(auth, ' ')[1] == token;
  }

  /** The client's `bearer <token>` header is looked up by the token. */
  lemma BearerHeaderLookup(token: string, subjectOf: string -> Option<string>)
    requires token != "" && ' ' !in token && subjectOf(token).Some? && subjectOf(token).value != ""
    ensures CharmIdFromRequest("bearer " + token, subjectOf) == Found(subjectOf(token).value)
  {
    assert "bearer " + token == "bearer" + " " + token + "";
    CharmIdOfToken("bearer", token, "", subjectOf);
  }

  /** A second space makes the token field empty, whatever follows. */
  lemma DoubleSpaceMissesToken(scheme: string, rest: string, subjectOf: string -> Option<string>)
    requires ' ' !in scheme
    ensures CharmIdFromRequest(scheme + "  " + rest, subjectOf) == MissingUserKey
  {
    assert scheme + "  " + rest == scheme + " " + "" + (" " + rest);
    CharmIdOfToken(scheme, "", " " + rest, subjectOf);
  }

  // ---------------------------------------------------------------------
  // The middleware

  /** What the middleware does to a request's context, when it does not
      panic: the status it writes (`0` for none), its log lines, the value
      it stores under `charm_id`, and whether it aborts. */
  datatype Gate = Gate(status: nat, log: seq<LogEvent>, charmId: Option<string>, aborts: bool)

  /** The user's name as logged: empty when the lookup failed. */
  function LoggedId(l: IdLookup): string
  {
    if l.Found? then l.id else ""
  }

  /** `CharmAuth(charmUrl)` on a request with header `auth`; `None` when
      `charmIDFromRequest` panics. */
  function Authenticate(auth: string, charmUrl: string, subjectOf: string -> Option<string>,
                        remote: (string, string) -> RemoteOutcome): (r: Option<Gate>)
    ensures r.None? <==> ' ' !in auth
    ensures r.Some? ==> |r.value.log| > 0 && r.value.log[0] == RequestFrom(LoggedId(CharmIdFromRequest(auth, subjectOf)))
    // the identity is stored before the Charm server is asked, so even a refused request has it
    ensures r.Some? ==>
      (r.value.charmId.Some? <==> CharmIdFromRequest(auth, subjectOf).Found?) &&
      (r.value.charmId.Some? ==> r.value.charmId.value == CharmIdFromRequest(auth, subjectOf).id)
    // the request goes on exactly when the identity was found and the Charm server answered 200
    ensures r.Some? ==>
      (!r.value.aborts <==>
        CharmIdFromRequest(auth, subjectOf).Found? &&
        remote(IdentityUrl(charmUrl, CharmIdFromRequest(auth, subjectOf).id), auth) == Replied(200))
    ensures r.Some? && !r.value.aborts ==> r.value.status == 0
    // no identity, or an identity the Charm server does not confirm, is 403; failing to ask it is 500
    ensures r.Some? && r.value.aborts ==>
      (r.value.status == 500 <==>
        CharmIdFromRequest(auth, subjectOf).Found? &&
        !remote(IdentityUrl(charmUrl, CharmIdFromRequest(auth, subjectOf).id), auth).Replied?)
    ensures r.Some? && r.value.aborts ==> r.value.status == 403 || r.value.status == 500
  {
    var lookup := CharmIdFromRequest(auth, subjectOf);
    if lookup == IndexOutOfRange then None
    else
      var first := [RequestFrom(LoggedId(lookup))];
      if !lookup.Found? then Some(Gate(403, first + [CharmIdClaimNotFound], None, true))
      else
        var id := Some(lookup.id);
        match remote(IdentityUrl(charmUrl, lookup.id), auth)
        case RequestNotBuilt => Some(Gate(500, first + [RemoteRequestNotCreated], id, true))
        case TransportError => Some(Gate(500, first + [AuthAgainst, RemoteRequestFailed], id, true))
        case Replied(code) =>
          if code != 200 then Some(Gate(403, first + [AuthAgainst, RemoteStatusInvalid], id, true))
          else Some(Gate(0, first + [AuthAgainst], id, false))
  }

  /** The middleware never lets through a request the Charm server was not
      asked about. */
  lemma PassesOnlyConfirmed(auth: string, charmUrl: string, subjectOf: string -> Option<string>,
                            remote: (string, string) -> RemoteOutcome)
    requires Authenticate(auth, charmUrl, subjectOf, remote).Some?
    requires !Authenticate(auth, charmUrl, subjectOf, remote).value.aborts
    ensures exists id :: (id != "" && remote(IdentityUrl(charmUrl, id), auth) == Replied(200) &&
      Authenticate(auth, charmUrl, subjectOf, remote).value.charmId == Some(id))
  {
    var id := CharmIdFromRequest(auth, subjectOf).id;
    assert remote(IdentityUrl(charmUrl, id), auth) == Replied(200);
  }

  /** The `CharmAuth` middleware on a gin context; `panicked` tells that
      `charmIDFromRequest` panicked, in which case nothing was done. */
  method CharmAuth(c: Context, charmUrl: string, subjectOf: string -> Option<string>,
                   remote: (string, string) -> RemoteOutcome) returns (panicked: bool)
    modifies c
    ensures var g := Authenticate(c.request.authorization, charmUrl, subjectOf, remote);
      && panicked == g.None?
      && (g.None? ==>
            c.status == old(c.status) && c.log == old(c.log) && c.keys == old(c.keys) && c.aborted == old(c.aborted))
      && (g.Some? ==>
            && c.status == WriteStatus(old(c.status), g.value.status)
            && c.log == old(c.log) + g.value.log
            && c.keys == (if g.value.charmId.Some? then old(c.keys)["charm_id" := Str(g.value.charmId.value)] else old(c.keys))
            && c.aborted == (old(c.aborted) || g.value.aborts))
    ensures c.body == old(c.body)
  {
    var auth := c.request.authorization;
    var lookup := CharmIdFromRequest(auth, subjectOf);
    if lookup == IndexOutOfRange {
      return true;
    }
    c.Log(RequestFrom(LoggedId(lookup)));
    if !lookup.Found? {
      c.Log(CharmIdClaimNotFound);
      c.AbortWithStatus(403);
      return false;
    }
    c.Set("charm_id", Str(lookup.id));
    var outcome := remote(IdentityUrl(charmUrl, lookup.id), auth);
    if outcome.RequestNotBuilt? {
      c.Log(RemoteRequestNotCreated);
      c.AbortWithStatus(500);
      return false;
    }
    c.Log(AuthAgainst);
    if outcome.TransportError? {
      c.Log(RemoteRequestFailed);
      c.AbortWithStatus(500);
      return false;
    }
    if outcome.code != 200 {
      c.Log(RemoteStatusInvalid);
      c.AbortWithStatus(403);
    }
    return false;
  }
}
