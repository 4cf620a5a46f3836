/**
 * The HTTP entry point of the serverless function: which branch a request takes
 * (`Route`), the status and body it gets together with the platform state it
 * leaves (`Serve`), and the in-place handler that calls the membership operations
 * (`Handle`).
 */
module Handler {

  import opened Js
  import opened RoleResolver
  import opened VipRoles

  /** The four body fields the handler reads (`paymentInfo` is read but never used). */
  datatype Body = Body(action: Field, discordId: Field, roleType: Field, secret: Field)

  /** A request; `body` is `None` when the platform passes no parsed body object. */
  datatype Request = Request(httpMethod: string, url: string, body: Option<Body>)

  datatype Operation = Give | Remove

  /** The branch of the handler a request ends in. */
  datatype Decision =
    | Preflight                 // OPTIONS
    | StatusProbe               // GET /api/bot or /api/bot/status
    | DiagnosticsProbe          // GET /api/bot/test
    | BodyMissing               // POST whose body cannot be destructured: the error reaches the catch
    | Unauthorized              // POST with the wrong secret
    | MissingFields             // POST without discordId or roleType
    | UnknownAction             // POST with an action other than give/remove
    | Dispatch(op: Operation, discordId: string, roleType: string)
    | MethodNotAllowed          // everything else

  datatype Payload =
    | Empty
    | Error(message: string)
    | ServerError               // `{error: error.message}` of a runtime TypeError
    | StatusReport              // live platform data, not modelled
    | DiagnosticsReport         // live platform data, not modelled
    | ActionReply(result: ActionResult)

  datatype Response = Response(status: int, payload: Payload)

  /** The platform state after a request, with the response sent. */
  datatype Exchange = Exchange(after: Server, response: Response)

  const UNAUTHORIZED := "Non autorisé"
  const FIELDS_REQUIRED := "discordId et roleType requis"
  const UNKNOWN_ACTION := "Action inconnue"
  const METHOD_NOT_ALLOWED := "Méthode non autorisée"

  predicate IsStatusPath(url: string) {
    url == "/api/bot" || url == "/api/bot/status"
  }

  /**
   * The branch taken, in the handler's fixed order: OPTIONS, the two GET paths, then
   * for POST the secret, the required fields and the action; all else is 405.
   */
  function Route(req: Request, configuredSecret: Field): (d: Decision)
    ensures d == Preflight <==> req.httpMethod == "OPTIONS"
    ensures d == StatusProbe <==> req.httpMethod == "GET" && IsStatusPath(req.url)
    ensures d == DiagnosticsProbe <==> req.httpMethod == "GET" && req.url == "/api/bot/test"
    // a POST without a body object fails while destructuring it, before the secret check
    ensures d == BodyMissing <==> req.httpMethod == "POST" && req.body.None?
    // GET reaches a probe only on its three paths; any other GET falls through to 405
    ensures req.httpMethod == "GET" ==>
              d == (if IsStatusPath(req.url) then StatusProbe
                    else if req.url == "/api/bot/test" then DiagnosticsProbe
                    else MethodNotAllowed)
    // 405 exactly for the methods the handler does not serve and the unknown GET paths
    ensures d == MethodNotAllowed <==>
              req.httpMethod !in {"OPTIONS", "GET", "POST"} ||
              (req.httpMethod == "GET" && !IsStatusPath(req.url) && req.url != "/api/bot/test")
    // the secret is checked before anything else a POST carries
    ensures d == Unauthorized <==>
              req.httpMethod == "POST" && req.body.Some? && req.body.value.secret != configuredSecret
    ensures d == MissingFields <==>
              req.httpMethod == "POST" && req.body.Some? && req.body.value.secret == configuredSecret &&
              (!Truthy(req.body.value.discordId) || !Truthy(req.body.value.roleType))
    // an operation is reached only with the right secret and both fields present
    ensures d.Dispatch? ==>
              req.httpMethod == "POST" && req.body.Some? &&
              req.body.value.secret == configuredSecret &&
              req.body.value.discordId == Text(d.discordId) && d.discordId != "" &&
              req.body.value.roleType == Text(d.roleType) && d.roleType != ""
    // a missing or falsy action means give
    ensures d.Dispatch? ==>
              (d.op == Give <==> !Truthy(req.body.value.action) || req.body.value.action == Text("give"))
    ensures d.Dispatch? && d.op == Remove ==> req.body.value.action == Text("remove")
  {
    if req.httpMethod == "OPTIONS" then Preflight
    else if req.httpMethod == "GET" && IsStatusPath(req.url) then StatusProbe
    else if req.httpMethod == "GET" && req.url == "/api/bot/test" then DiagnosticsProbe
    else if req.httpMethod == "POST" then
      match req.body
      case None => BodyMissing
      case Some(b) =>
        if b.secret != configuredSecret then Unauthorized
        else if !Truthy(b.discordId) || !Truthy(b.roleType) then MissingFields
        else if b.action == Text("give") || !Truthy(b.action) then
          Dispatch(Give, b.discordId.s, b.roleType.s)
        else if b.action == Text("remove") then Dispatch(Remove, b.discordId.s, b.roleType.s)
        else UnknownAction
    else MethodNotAllowed
  }

  /** The response of a branch that does not call into the membership service. */
  function Reply(d: Decision): (r: Response)
    requires !d.Dispatch?
    ensures r.status == 200 <==> d in {Preflight, StatusProbe, DiagnosticsProbe}
    ensures r.status == 401 <==> d == Unauthorized
    ensures r.status == 400 <==> d in {MissingFields, UnknownAction}
    ensures r.status == 405 <==> d == MethodNotAllowed
    ensures r.status == 500 <==> d == BodyMissing
  {
    match d
    case Preflight => Response(200, Empty)
    case StatusProbe => Response(200, StatusReport)
    case DiagnosticsProbe => Response(200, DiagnosticsReport)
    case BodyMissing => Response(500, ServerError)
    case Unauthorized => Response(401, Error(UNAUTHORIZED))
    case MissingFields => Response(400, Error(FIELDS_REQUIRED))
    case UnknownAction => Response(400, Error(UNKNOWN_ACTION))
    case MethodNotAllowed => Response(405, Error(METHOD_NOT_ALLOWED))
  }

  /** One request against the platform: only a dispatched operation can change it. */
  function Serve(s: Server, req: Request, configuredSecret: Field): (x: Exchange)
    ensures !Route(req, configuredSecret).Dispatch? ==> x.after == s
    // the operation's result is sent with status 200 whether or not it succeeded
    ensures Route(req, configuredSecret).Dispatch? ==>
              x.response.status == 200 && x.response.payload.ActionReply?
  {
    match Route(req, configuredSecret)
    case Dispatch(op, id, roleType) =>
      var o := if op == Give then Grant(s, id, roleType) else Revoke(s, id, roleType);
      Exchange(o.after, Response(200, ActionReply(o.result)))
    case d => Exchange(s, Reply(d))
  }

  /** `handler`: decides the branch, then runs the operation on the platform in place. */
  method Handle(platform: Platform, req: Request, configuredSecret: Field) returns (resp: Response)
    modifies platform
    ensures Exchange(platform.State(), resp) == Serve(old(platform.State()), req, configuredSecret)
  {
    var d := Route(req, configuredSecret);
    match d
    case Dispatch(op, id, roleType) =>
      var result;
      if op == Give {
        result := platform.GiveVipRole(id, roleType);
      } else {
        result := platform.RemoveVipRole(id, roleType);
      }
      resp := Response(200, ActionReply(result));
    case _ =>
      resp := Reply(d);
  }

  /** OPTIONS is answered 200 with an empty body, whatever the URL and body. */
  lemma PreflightAlwaysEmpty(s: Server, req: Request, configuredSecret: Field)
    requires req.httpMethod == "OPTIONS"
    ensures Serve(s, req, configuredSecret) == Exchange(s, Response(200, Empty))
  {
  }

  /** A POST whose body cannot be destructured is 500, and the platform is untouched. */
  lemma MissingBodyIsServerError(s: Server, req: Request, configuredSecret: Field)
    requires req.httpMethod == "POST" && req.body.None?
    ensures Serve(s, req, configuredSecret) == Exchange(s, Response(500, ServerError))
  {
  }

  /**
   * A wrong secret is 401 whatever the other fields and the URL, and never reaches
   * the membership service.
   */
  lemma WrongSecretIsUnauthorized(s: Server, req: Request, configuredSecret: Field)
    requires req.httpMethod == "POST" && req.body.Some? && req.body.value.secret != configuredSecret
    ensures Serve(s, req, configuredSecret) == Exchange(s, Response(401, Error(UNAUTHORIZED)))
  {
  }

  /** With the right secret, a missing or empty `discordId` or `roleType` is 400. */
  lemma MissingFieldsAreRejected(s: Server, req: Request, configuredSecret: Field)
    requires req.httpMethod == "POST" && req.body.Some? && req.body.value.secret == configuredSecret
    requires req.body.value.discordId in {Absent, Null, Text("")} ||
             req.body.value.roleType in {Absent, Null, Text("")}
    ensures Serve(s, req, configuredSecret) == Exchange(s, Response(400, Error(FIELDS_REQUIRED)))
  {
  }

  /** The action dispatch of an authenticated, complete POST. */
  lemma ActionDispatch(s: Server, req: Request, configuredSecret: Field, id: string, roleType: string)
    requires req.httpMethod == "POST" && req.body.Some?
    requires req.body.value.secret == configuredSecret
    requires req.body.value.discordId == Text(id) && id != ""
    requires req.body.value.roleType == Text(roleType) && roleType != ""
    ensures req.body.value.action in {Absent, Null, Text(""), Text("give")} ==>
              Serve(s, req, configuredSecret) ==
              var o := Grant(s, id, roleType); Exchange(o.after, Response(200, ActionReply(o.result)))
    ensures req.body.value.action == Text("remove") ==>
              Serve(s, req, configuredSecret) ==
              var o := Revoke(s, id, roleType); Exchange(o.after, Response(200, ActionReply(o.result)))
    ensures req.body.value.action !in {Absent, Null, Text(""), Text("give"), Text("remove")} ==>
              Serve(s, req, configuredSecret) == Exchange(s, Response(400, Error(UNKNOWN_ACTION)))
  {
  }

  /** A GET on any other path, and any other method, is 405 and changes nothing. */
  lemma OtherRequestsNotAllowed(s: Server, req: Request, configuredSecret: Field)
    requires req.httpMethod !in {"OPTIONS", "GET", "POST"} ||
             (req.httpMethod == "GET" && !IsStatusPath(req.url) && req.url != "/api/bot/test")
    ensures Serve(s, req, configuredSecret) == Exchange(s, Response(405, Error(METHOD_NOT_ALLOWED)))
  {
  }

  /**
   * When the secret is not configured (the environment variable is unset, so it reads
   * as `undefined`), a POST that sends no secret at all passes the 401 check.
   */
  lemma UnsetSecretAdmitsMissingSecret(s: Server, req: Request)
    requires req.httpMethod == "POST" && req.body.Some? && req.body.value.secret == Absent
    requires Truthy(req.body.value.discordId) && Truthy(req.body.value.roleType)
    requires req.body.value.action in {Absent, Text("give"), Text("remove")}
    ensures Route(req, Absent).Dispatch?
    ensures Serve(s, req, Absent).response.status == 200
  {
  }

  /**
   * A give request repeated right after one that succeeded is answered
   * `Rôle déjà attribué` with the member's tag and changes nothing, the audit log included.
   */
  lemma RepeatedGiveIsAlreadyGranted(s: Server, req: Request, configuredSecret: Field)
    requires Route(req, configuredSecret).Dispatch? && Route(req, configuredSecret).op == Give
    requires Serve(s, req, configuredSecret).response.payload.result.Success()
    ensures var first := Serve(s, req, configuredSecret);
            var id := Route(req, configuredSecret).discordId;
            Serve(first.after, req, configuredSecret) ==
            Exchange(first.after,
                     Response(200, ActionReply(Unchanged(ALREADY_GRANTED, Some(s.members[id].tag)))))
  {
  }

  /** A remove request for an unknown member is 200 with `success:false`, and nothing changes. */
  lemma RemoveUnknownMemberIs200(s: Server, req: Request, configuredSecret: Field)
    requires Route(req, configuredSecret).Dispatch? && Route(req, configuredSecret).op == Remove
    requires s.guildFound && Route(req, configuredSecret).discordId !in s.members
    ensures Serve(s, req, configuredSecret) ==
            Exchange(s, Response(200, ActionReply(Failed(REVOKE_MEMBER_NOT_FOUND))))
  {
  }
}
