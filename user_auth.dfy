/**
 * The userAuth middleware: it classifies the `token` cookie of a request into
 * exactly one outcome. Only Next calls next() (after setting req.userId);
 * every other outcome sends one JSON error response and stops the request.
 */
module UserAuth {

  import opened Wrappers
  import opened Jwt

  datatype Verdict =
    | Next(userId: string)   // req.userId = decoded.id; next()
    | MissingToken           // no cookie, or an empty one
    | NoId                   // verified, but no usable id in the payload
    | Expired                // jwt.verify threw a TokenExpiredError
    | Invalid                // jwt.verify threw a JsonWebTokenError
    | InternalError          // jwt.verify threw anything else

  datatype Response = Response(status: int, message: string)

  predicate Present(token: Option<string>)
  {
    token.Some? && token.value != ""
  }

  /**
   * `token` is req.cookies?.token; `verify` is jwt.verify with the server's
   * secret, consulted only when a token is present.
   */
  function Authenticate(token: Option<string>, verify: string -> Verification): (v: Verdict)
    ensures v == MissingToken <==> !Present(token)
    ensures v.Next? <==>
      Present(token) && verify(token.value).Decoded? && verify(token.value).id != ""
    ensures v.Next? ==> v.userId == verify(token.value).id
    ensures v == NoId <==> Present(token) && verify(token.value) == Decoded("")
    ensures v == Expired <==> Present(token) && verify(token.value) == Threw("TokenExpiredError")
    ensures v == Invalid <==> Present(token) && verify(token.value) == Threw("JsonWebTokenError")
    ensures v == InternalError <==>
      Present(token) && verify(token.value).Threw?
      && verify(token.value).name != "TokenExpiredError" && verify(token.value).name != "JsonWebTokenError"
  {
    if !Present(token) then MissingToken
    else
      match verify(token.value)
      case Decoded(id) => if id == "" then NoId else Next(id)
      case Threw(name) =>
        if name == "TokenExpiredError" then Expired
        else if name == "JsonWebTokenError" then Invalid
        else InternalError
  }

  /** The response a verdict sends; None exactly when next() is called instead. */
  function Respond(v: Verdict): (r: Option<Response>)
    ensures r.None? <==> v.Next?
    ensures r.Some? ==> (r.value.status == 500 <==> v == InternalError)
    ensures r.Some? ==> r.value.status in {401, 500}
  {
    match v
    case Next(_) => None
    case MissingToken => Some(Response(401, "Accès refusé. Veuillez vous connecter."))
    case NoId => Some(Response(401, "Token invalide ou expiré. Veuillez vous reconnecter."))
    case Expired => Some(Response(401, "Session expirée. Veuillez vous reconnecter."))
    case Invalid => Some(Response(401, "Token invalide."))
    case InternalError => Some(Response(500, "Erreur interne du serveur."))
  }

  /**
   * The five refusals send five different responses: in particular an expired
   * session is told apart from a malformed token.
   */
  lemma RefusalsDistinct(v: Verdict, w: Verdict)
    requires !v.Next? && !w.Next? && v != w
    ensures Respond(v) != Respond(w)
  {
  }
}
